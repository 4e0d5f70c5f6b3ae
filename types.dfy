/** The storefront's records (src/types/index.ts) and the log of effects that the
    pages issue: calls into the cart engine, navigation and toast notifications.
    The cart engine itself is not part of this model; its operations appear only
    as the commands the pages hand to it. */
module Types {

  datatype Option<T> = None | Some(value: T)

  /** The three values of `Product.category`. */
  datatype Category = Electronics | Books | Apparel

  function CategoryName(c: Category): string
  {
    match c
    case Electronics => "Electronics"
    case Books => "Books"
    case Apparel => "Apparel"
  }

  /** A catalog entry. Prices are whole currency units; the rating is only displayed. */
  datatype Product = Product(
    id: string,
    name: string,
    price: int,
    description: string,
    image: string,
    category: Category,
    inStock: bool,
    rating: real,
    reviews: nat)

  datatype CartItem = CartItem(product: Product, quantity: int)

  /** The cart engine's state as the pages read it; `total` and `itemCount` are
      computed by the engine and are only displayed here. */
  datatype CartState = CartState(items: seq<CartItem>, total: int, itemCount: int)

  datatype CheckoutFormData = CheckoutFormData(
    name: string,
    email: string,
    address: string,
    city: string,
    zipCode: string)

  /** One observable effect of a page handler, in the order it is issued. */
  datatype Effect =
    | AddItem(product: Product)
    | RemoveItem(productId: string)
    | UpdateQuantity(productId: string, quantity: int)
    | ClearCart
    | Navigate(path: string, replace: bool)
    | Toast(title: string, description: string, destructive: bool)

  /** The destructive notification both add-to-cart handlers show for a product
      that is out of stock. */
  const OutOfStockToast: Effect := Toast("Out of Stock", "This item is currently out of stock.", true)

  /** Number of occurrences of `e` in the log. */
  function Occurrences(log: seq<Effect>, e: Effect): nat
  {
    if log == [] then 0
    else Occurrences(log[..|log| - 1], e) + (if log[|log| - 1] == e then 1 else 0)
  }

  /** Number of `AddItem` commands in the log, whatever product they carry. */
  function AddCount(log: seq<Effect>): nat
  {
    if log == [] then 0
    else AddCount(log[..|log| - 1]) + (if log[|log| - 1].AddItem? then 1 else 0)
  }

  /** `n` copies of `e`, the log of a loop that issues `e` on each of `n` rounds. */
  function Repeat(e: Effect, n: nat): (r: seq<Effect>)
    ensures |r| == n
    ensures forall i :: 0 <= i < n ==> r[i] == e
  {
    if n == 0 then [] else Repeat(e, n - 1) + [e]
  }

  /** A one-entry log. */
  lemma OccurrencesSingle(x: Effect, e: Effect)
    ensures Occurrences([x], e) == (if x == e then 1 else 0)
    ensures AddCount([x]) == (if x.AddItem? then 1 else 0)
  {
    assert [x][..0] == [];
  }

  /** Counting distributes over appending to the log. */
  lemma {:induction false} OccurrencesAppend(a: seq<Effect>, b: seq<Effect>, e: Effect)
    ensures Occurrences(a + b, e) == Occurrences(a, e) + Occurrences(b, e)
    ensures AddCount(a + b) == AddCount(a) + AddCount(b)
    decreases |b|
  {
    if b == [] {
      assert a + b == a;
    } else if |b| == 1 {
      OccurrencesSingle(b[0], e);
      assert (a + b)[..|a + b| - 1] == a;
    } else {
      var b' := b[..|b| - 1];
      assert (a + b)[..|a + b| - 1] == a + b';
      OccurrencesAppend(a, b', e);
    }
  }

  /** A log of `n` copies of `e` holds `e` exactly `n` times and nothing else. */
  lemma {:induction false} OccurrencesRepeat(e: Effect, n: nat, other: Effect)
    ensures Occurrences(Repeat(e, n), e) == n
    ensures other != e ==> Occurrences(Repeat(e, n), other) == 0
    ensures AddCount(Repeat(e, n)) == (if e.AddItem? then n else 0)
  {
    if n > 0 {
      OccurrencesRepeat(e, n - 1, other);
      OccurrencesAppend(Repeat(e, n - 1), [e], e);
      OccurrencesAppend(Repeat(e, n - 1), [e], other);
      OccurrencesSingle(e, e);
      OccurrencesSingle(e, other);
    }
  }
}
