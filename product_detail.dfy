/** The product page (src/pages/ProductDetail.tsx): the product named by the route
    is looked up in the catalog; the page keeps a quantity between 1 and 10 that
    two buttons change, and its add-to-cart handler issues one add per unit. */
module ProductDetailPage {
  import opened Types
  import opened Text
  import Catalog

  /** The increase button is disabled from this quantity on. */
  const MaxQuantity: int := 10

  /** `products.find(p => p.id === id)`. */
  function FindProduct(catalog: seq<Product>, id: string): (r: Option<Product>)
    ensures r.Some? ==> r.value in catalog && r.value.id == id
    ensures r.None? <==> forall p :: p in catalog ==> p.id != id
  {
    if catalog == [] then None
    else if catalog[0].id == id then Some(catalog[0])
    else
      var r := FindProduct(catalog[1..], id);
      assert forall p :: p in catalog <==> p == catalog[0] || p in catalog[1..];
      r
  }

  /** The lookup returns the first product with the id, whatever follows it. */
  lemma {:induction false} FindProductFirst(catalog: seq<Product>, id: string, i: nat)
    requires i < |catalog| && catalog[i].id == id
    requires forall j :: 0 <= j < i ==> catalog[j].id != id
    ensures FindProduct(catalog, id) == Some(catalog[i])
  {
    if i > 0 {
      FindProductFirst(catalog[1..], id, i - 1);
    }
  }

  /** In a list whose ids are "1", "2", ... in order, every product is found by its
      own id, and a number past the end finds nothing. */
  lemma {:induction false} NumberedLookup(ps: seq<Product>, n: nat)
    requires forall i :: 0 <= i < |ps| ==> ps[i].id == NatToString(i + 1)
    ensures forall i :: 0 <= i < |ps| ==> FindProduct(ps, ps[i].id) == Some(ps[i])
    ensures n > |ps| ==> FindProduct(ps, NatToString(n)) == None
  {
    forall i | 0 <= i < |ps| ensures FindProduct(ps, ps[i].id) == Some(ps[i]) {
      forall j | 0 <= j < i ensures ps[j].id != ps[i].id {
        NatToStringInjective(j + 1, i + 1);
      }
      FindProductFirst(ps, ps[i].id, i);
    }
    if n > |ps| {
      forall p | p in ps ensures p.id != NatToString(n) {
        var i :| 0 <= i < |ps| && ps[i] == p;
        NatToStringInjective(i + 1, n);
      }
    }
  }

  /** In the shipped catalog every product is found by its own id, and the
      decimal rendering of any number past 15, such as "16", finds nothing. */
  lemma CatalogLookup(n: nat)
    ensures forall i :: 0 <= i < |Catalog.Products| ==>
      FindProduct(Catalog.Products, Catalog.Products[i].id) == Some(Catalog.Products[i])
    ensures n > 15 ==> FindProduct(Catalog.Products, NatToString(n)) == None
  {
    Catalog.CatalogIds();
    NumberedLookup(Catalog.Products, n);
  }

  /** The quantity selector's two buttons. */
  datatype Press = Decrease | Increase

  predicate DecreaseDisabled(q: int)
  {
    q <= 1
  }

  predicate IncreaseDisabled(q: int)
  {
    q >= MaxQuantity
  }

  /** The quantity after pressing a button; a disabled button changes nothing. */
  function Step(q: int, press: Press): int
  {
    match press
    case Decrease => if DecreaseDisabled(q) then q else Max(1, q - 1)
    case Increase => if IncreaseDisabled(q) then q else q + 1
  }

  function Max(a: int, b: int): int
  {
    if a >= b then a else b
  }

  /** The quantity after a series of presses. */
  function Run(q: int, presses: seq<Press>): int
    decreases |presses|
  {
    if presses == [] then q else Run(Step(q, presses[0]), presses[1..])
  }

  /** Whatever the presses, a quantity that starts between 1 and 10 stays there;
      the page starts at 1, so every quantity it shows lies in 1..10. */
  lemma {:induction false} QuantityStaysInRange(q: int, presses: seq<Press>)
    requires 1 <= q <= MaxQuantity
    ensures 1 <= Run(q, presses) <= MaxQuantity
    decreases |presses|
  {
    if presses != [] {
      QuantityStaysInRange(Step(q, presses[0]), presses[1..]);
    }
  }

  /** Below the cap, decreasing undoes increasing, and above 1 increasing undoes
      decreasing. */
  lemma StepsUndo(q: int)
    ensures 1 <= q < MaxQuantity ==> Step(Step(q, Increase), Decrease) == q
    ensures 1 < q <= MaxQuantity ==> Step(Step(q, Decrease), Increase) == q
  {
  }

  /** The confirmation after adding: "<quantity> x <name> added to your cart." */
  function AddedToast(p: Product, quantity: nat): Effect
  {
    Toast("Added to cart", NatToString(quantity) + " x " + p.name + " added to your cart.", false)
  }

  /** What `handleAddToCart` issues for a product and the selected quantity. */
  function AddToCartEffects(p: Product, quantity: nat): seq<Effect>
  {
    if !p.inStock then [OutOfStockToast]
    else Repeat(AddItem(p), quantity) + [AddedToast(p, quantity)]
  }

  /** An out-of-stock product is refused with a notification and no add; an
      in-stock product is added exactly `quantity` times, always as itself, and
      the confirmation comes last. */
  lemma AddToCartCounts(p: Product, quantity: nat)
    ensures AddCount(AddToCartEffects(p, quantity)) == Occurrences(AddToCartEffects(p, quantity), AddItem(p))
    ensures Occurrences(AddToCartEffects(p, quantity), AddItem(p)) == (if p.inStock then quantity else 0)
    ensures !p.inStock <==> OutOfStockToast in AddToCartEffects(p, quantity)
    ensures p.inStock ==> AddToCartEffects(p, quantity)[quantity] == AddedToast(p, quantity)
  {
    var effects := AddToCartEffects(p, quantity);
    if p.inStock {
      OccurrencesRepeat(AddItem(p), quantity, AddItem(p));
      OccurrencesAppend(Repeat(AddItem(p), quantity), [AddedToast(p, quantity)], AddItem(p));
      OccurrencesSingle(AddedToast(p, quantity), AddItem(p));
      assert effects[quantity] == AddedToast(p, quantity);
    } else {
      OccurrencesSingle(OutOfStockToast, AddItem(p));
    }
  }

  /** What the page shows: the not-found view, which has no add control, or the
      product with its quantity selector and add button. */
  datatype DetailView =
    | NotFound
    | Found(
        product: Product,
        quantity: int,
        decreaseDisabled: bool,
        increaseDisabled: bool,
        addDisabled: bool,
        stockLabel: string)

  function Render(product: Option<Product>, quantity: int): DetailView
  {
    match product
    case None => NotFound
    case Some(p) =>
      Found(p, quantity, DecreaseDisabled(quantity), IncreaseDisabled(quantity), !p.inStock,
            if p.inStock then "In Stock" else "Out of Stock")
  }

  /** The page opened for an id that no product has shows the not-found view, and
      only then; a found view shows the product with that id. */
  lemma NotFoundView(catalog: seq<Product>, id: string, quantity: int)
    ensures var v := Render(FindProduct(catalog, id), quantity);
      (v.NotFound? <==> forall p :: p in catalog ==> p.id != id) &&
      (v.Found? ==> v.product.id == id && v.product in catalog && v.quantity == quantity)
  {
  }

  /** The add button is disabled exactly for an out-of-stock product, and the stock
      badge reads "Out of Stock" exactly then, "In Stock" otherwise. */
  lemma StockControlsAgree(p: Product, quantity: int)
    ensures Render(Some(p), quantity).addDisabled <==> !p.inStock
    ensures Render(Some(p), quantity).stockLabel == (if Render(Some(p), quantity).addDisabled then "Out of Stock" else "In Stock")
    ensures Render(Some(p), quantity).decreaseDisabled <==> quantity <= 1
    ensures Render(Some(p), quantity).increaseDisabled <==> quantity >= MaxQuantity
  {
  }

  /** The page's state: the product found for the route's id, the selected
      quantity, and the effects issued so far. */
  class DetailPage {
    const product: Option<Product>
    var quantity: int
    var log: seq<Effect>

    ghost predicate Valid()
      reads this
    {
      1 <= quantity <= MaxQuantity
    }

    /** The page for the id in the route; the quantity starts at 1. */
    constructor (catalog: seq<Product>, id: string)
      ensures Valid()
      ensures product == FindProduct(catalog, id) && quantity == 1 && log == []
    {
      product := FindProduct(catalog, id);
      quantity := 1;
      log := [];
    }

    function View(): DetailView
      reads this
    {
      Render(product, quantity)
    }

    /** The "-" button: `setQuantity(Math.max(1, quantity - 1))`, disabled at 1. */
    method PressDecrease()
      requires Valid()
      modifies this`quantity
      ensures Valid()
      ensures quantity == Step(old(quantity), Decrease)
    {
      if !DecreaseDisabled(quantity) {
        quantity := Max(1, quantity - 1);
      }
    }

    /** The "+" button: `setQuantity(quantity + 1)`, disabled from 10 on. */
    method PressIncrease()
      requires Valid()
      modifies this`quantity
      ensures Valid()
      ensures quantity == Step(old(quantity), Increase)
    {
      if !IncreaseDisabled(quantity) {
        quantity := quantity + 1;
      }
    }

    /** `handleAddToCart`, which exists only once a product was found. */
    method HandleAddToCart()
      requires Valid() && product.Some?
      modifies this`log
      ensures log == old(log) + AddToCartEffects(product.value, quantity)
    {
      var p := product.value;
      if !p.inStock {
        log := log + [OutOfStockToast];
        return;
      }
      var i := 0;
      while i < quantity
        invariant 0 <= i <= quantity
        invariant log == old(log) + Repeat(AddItem(p), i)
      {
        log := log + [AddItem(p)];
        i := i + 1;
      }
      log := log + [AddedToast(p, quantity)];
    }

    /** Pressing the add button: there is none on the not-found view, and a
        disabled one does nothing; so only in-stock products are ever added. */
    method PressAddToCart()
      requires Valid()
      modifies this`log
      ensures product.None? || !product.value.inStock ==> log == old(log)
      ensures product.Some? && product.value.inStock ==>
        log == old(log) + AddToCartEffects(product.value, quantity)
    {
      if View().Found? && !View().addDisabled {
        HandleAddToCart();
      }
    }
  }
}
