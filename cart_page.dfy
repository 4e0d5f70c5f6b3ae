/** The cart page (src/pages/Cart.tsx). It keeps no state of its own: it renders
    the cart engine's state and, for each line, the commands its remove, decrease
    and increase controls hand back to the engine. */
module CartPage {
  import opened Types

  /** One rendered line of the cart. */
  datatype LineView = LineView(
    productId: string,
    name: string,
    quantity: int,
    lineTotal: int,
    decreaseDisabled: bool)

  /** Either the empty-cart message, or the lines with a header and a summary
      that both show the engine's item count, and the checkout button. */
  datatype CartView =
    | EmptyCart
    | Listing(headerCount: int, lines: seq<LineView>, subtotalCount: int, total: int)

  function LineOf(item: CartItem): LineView
  {
    LineView(item.product.id, item.product.name, item.quantity,
             item.product.price * item.quantity, item.quantity <= 1)
  }

  /** `state.items.map(...)`: one line per item, in the engine's order. */
  function Lines(items: seq<CartItem>): (lines: seq<LineView>)
    ensures |lines| == |items|
    ensures forall i :: 0 <= i < |items| ==>
      lines[i].productId == items[i].product.id &&
      lines[i].quantity == items[i].quantity &&
      lines[i].lineTotal == items[i].product.price * items[i].quantity &&
      (lines[i].decreaseDisabled <==> items[i].quantity <= 1)
  {
    if items == [] then [] else [LineOf(items[0])] + Lines(items[1..])
  }

  /** The page: the empty-cart branch exactly when there are no items, and
      otherwise a listing whose header and subtotal show the engine's item count,
      which is not the number of lines. */
  function Render(state: CartState): (v: CartView)
    ensures v.EmptyCart? <==> |state.items| == 0
    ensures v.Listing? ==>
      v.lines == Lines(state.items) && v.headerCount == state.itemCount &&
      v.subtotalCount == state.itemCount && v.total == state.total
  {
    if |state.items| == 0 then EmptyCart
    else Listing(state.itemCount, Lines(state.items), state.itemCount, state.total)
  }

  /** The trash control of a line: `removeItem(item.product.id)`. */
  function RemovePress(item: CartItem): (r: Effect)
    ensures r.RemoveItem? && r.productId == item.product.id
  {
    RemoveItem(item.product.id)
  }

  /** The "-" control of a line: `updateQuantity(id, quantity - 1)`, disabled at
      quantity 1 or less, when it issues nothing. */
  function DecreasePress(item: CartItem): (r: Option<Effect>)
    ensures r.None? <==> item.quantity <= 1
    ensures r.Some? ==> r.value.UpdateQuantity? && r.value.productId == item.product.id
    ensures r.Some? ==> r.value.quantity == item.quantity - 1 && r.value.quantity >= 1
  {
    if item.quantity <= 1 then None else Some(UpdateQuantity(item.product.id, item.quantity - 1))
  }

  /** The "+" control of a line: `updateQuantity(id, quantity + 1)`, never
      disabled, so unlike the product page it has no upper bound. */
  function IncreasePress(item: CartItem): (r: Effect)
    ensures r.UpdateQuantity? && r.productId == item.product.id && r.quantity == item.quantity + 1
  {
    UpdateQuantity(item.product.id, item.quantity + 1)
  }

  /** The checkout button, which only the listing has: `navigate('/checkout')`. */
  function ProceedPress(v: CartView): (r: Option<Effect>)
    ensures r.Some? <==> v.Listing?
    ensures r.Some? ==> r.value == Navigate("/checkout", false)
  {
    if v.Listing? then Some(Navigate("/checkout", false)) else None
  }

  /** Every command a rendered line issues names that line's product. */
  lemma {:induction false} ControlsTargetTheirLine(state: CartState, i: nat)
    requires i < |state.items|
    ensures var item := state.items[i];
      RemovePress(item).productId == Render(state).lines[i].productId &&
      IncreasePress(item).productId == Render(state).lines[i].productId &&
      (DecreasePress(item).Some? <==> !Render(state).lines[i].decreaseDisabled) &&
      (DecreasePress(item).Some? ==> DecreasePress(item).value.productId == Render(state).lines[i].productId)
  {
  }

  /** The decrease control undoes the increase control: on a line raised from q
      to q + 1 it requests q again, for every q of at least 1. */
  lemma DecreaseUndoesIncrease(item: CartItem)
    requires item.quantity >= 1
    ensures var raised := CartItem(item.product, IncreasePress(item).quantity);
      DecreasePress(raised) == Some(UpdateQuantity(item.product.id, item.quantity))
  {
  }

  /** Raising a line ten times from 1 requests 11: the cart has no cap of 10. */
  lemma IncreaseHasNoCap(p: Product)
    ensures IncreasePress(CartItem(p, 10)) == UpdateQuantity(p.id, 11)
  {
  }

  /** A line of quantity 1 offers no decrease at all, so its decrease control
      never asks the engine for quantity 0; the line can only go by removal. */
  lemma DecreaseAtOneIssuesNothing(p: Product)
    ensures DecreasePress(CartItem(p, 1)) == None
    ensures RemovePress(CartItem(p, 1)) == RemoveItem(p.id)
  {
  }
}
