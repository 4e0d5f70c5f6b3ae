# Troli storefront pages, modelled in Dafny

This project models the shopping pages of the Troli storefront:
- the product listing with its category filter and products-count line;
- the product tile;
- the product page with its quantity selector;
- the cart page;
- the checkout form with its validation and submission;
- the fifteen-product catalog they all read.

The cart engine behind the pages is not part of this model. Neither are the
router and the notification system. A call to any of them becomes an `Effect`
appended to a log, in the order the page issues it:
- `AddItem(product)`, `RemoveItem(id)`, `UpdateQuantity(id, q)` and `ClearCart` are the cart engine's commands;
- `Navigate(path, replace)` is a router call;
- `Toast(title, description, destructive)` is a notification.

The proofs are about what the pages issue and show. They are not about what the engine does with it.

Modules:
- `Types` holds the records of `src/types/index.ts`, the effect log and counting over it.
- `Text` renders whole numbers in decimal and reads them back. It also holds the
  "space before each capital, then lower-case" rewrite used for field labels.
- `Catalog` holds the fifteen products of `src/data/products.ts`, with facts about ids, stock, grouping and prices.
- `ProductsPage` models the category selection, the filter, the count line and the empty-grid message.
- `ProductCard` models the tile's link, badge, button and add handler.
- `ProductDetailPage` models the lookup by id and the not-found view.
  - A class `DetailPage` holds the selected quantity and the effect log.
  - Its quantity buttons keep the quantity in 1..10.
  - Its add handler issues one `AddItem` per unit in a loop.
- `CartPage` renders the engine's state and the commands each line's controls issue.
- `CheckoutPage` models the empty-cart redirect, the form and the validation in field order.
  - A class `Checkout` holds the form data, the processing flag and the effect log.
  - Its invariant: the cart is cleared once if the page is processing and never otherwise. Each clear is immediately followed by the navigation home that replaces the history entry.

The end-to-end test at e2e/cart-checkout.spec.ts:150-154 expects this: pressing
"decrease" on a line of quantity 1 empties the cart. The cart page disables that
button at quantity 1 (src/pages/Cart.tsx:98), so the press issues nothing. The
model follows the page (`CartPage.DecreaseAtOneIssuesNothing`).

## Model

| member | source | states |
|---|---|---|
| Catalog.CatalogIds | src/data/products.ts:4-175 | the catalog holds fifteen products, and the one at position i has id i+1 written in decimal |
| Catalog.CatalogIdsDistinct | src/data/products.ts:4-175 | no two catalog products share an id |
| Catalog.CatalogStock | src/data/products.ts:4-175 | a catalog product is out of stock exactly when its id is "4", "10" or "15" |
| Catalog.CatalogGrouping | src/data/products.ts:5-175 | the catalog lists five Electronics, then five Books, then five Apparel |
| Catalog.CatalogPricesPositive | src/data/products.ts:4-175 | every catalog price is positive |
| Text.NatToString | src/pages/Products.tsx:39 | a rendered count is a non-empty run of digits with no leading zero, one digit exactly below 10 |
| Text.ParseNatToString | src/pages/Products.tsx:39 | reading a rendered count back gives the count |
| Text.NatToStringInjective | src/pages/Products.tsx:39 | two counts render alike exactly when they are equal |
| Text.HumanizeIsWordsOf | src/pages/Checkout.tsx:40 | inserting a space before each capital and then lower-casing equals the one-pass rewrite: a capital becomes a space and its lower-case letter |
| Text.WordsOfShape | src/pages/Checkout.tsx:40 | the rewritten label has no capitals and is one character longer per capital of the key |
| Text.WordsOfAppend | src/pages/Checkout.tsx:40 | the rewrite distributes over concatenation |
| CheckoutPage.CamelWords | src/pages/Checkout.tsx:40 | two lower-case words joined by a capital are rewritten as the words separated by a space, the capital lower-cased |
| Text.WordsOfLowerIsIdentity | src/pages/Checkout.tsx:40 | a key without capitals is its own label |
| ProductsPage.FilteredSpec | src/pages/Products.tsx:13-18 | 'All' shows the list unchanged; a category shows exactly the products of that category, in list order, never more than the list |
| ProductsPage.FilterMembership | src/pages/Products.tsx:17 | a product passes the category filter exactly when it is in the list and has that category |
| ProductsPage.FilterIsSubsequence | src/pages/Products.tsx:17 | the filter keeps the products it keeps in their original order |
| ProductsPage.FiltersPartition | src/pages/Products.tsx:17 | the three category filters together hold every product of the list exactly once |
| ProductsPage.FilterAppend | src/pages/Products.tsx:17 | filtering a concatenation filters each part |
| ProductsPage.CountLabelReadsBack | src/pages/Products.tsx:39 | the count line starts "Showing ", the number after it reads back as the product count, then " product", with an "s" exactly when the count is not 1 |
| ProductsPage.CountLabelNamesCategory | src/pages/Products.tsx:40 | the count line contains " in " exactly when a single category is selected |
| ProductsPage.AllLabelContainsIn | e2e/cart-checkout.spec.ts:392-394 | the 'All' count line always contains "in", inside "Showing" |
| ProductsPage.CatalogListing | src/pages/Products.tsx:11-18 | on the catalog the page opens on all fifteen products; each category shows five; the no-products message never shows |
| ProductsPage.CatalogByCategory | src/pages/Products.tsx:17 | on the catalog each category filter gives its block of five products, in catalog order |
| ProductsPage.CatalogLabels | src/pages/Products.tsx:38-41 | on the catalog the count line reads "Showing 15 products" for 'All' and "Showing 5 products in C" for a category C |
| ProductCard.HandleAddToCart | src/components/product/ProductCard.tsx:18-36 | an in-stock product is added once and nothing else is added; an out-of-stock one is never added and gets the out-of-stock notification, exactly then |
| ProductCard.CardControlsAgree | src/components/product/ProductCard.tsx:101-117 | the out-of-stock badge, the disabled button and the "Out of Stock" label go together, exactly for out-of-stock products |
| ProductCard.PressAddsOnlyInStock | src/components/product/ProductCard.tsx:110-112 | through the button an in-stock product is added once, first; an out-of-stock product is never added and its refusal branch is never reached |
| ProductCard.LinkIdentifiesProduct | src/components/product/ProductCard.tsx:43 | two tiles link to the same page exactly when their products share an id |
| ProductCard.CatalogCards | src/components/product/ProductCard.tsx:43-105 | on the catalog every tile links to a page of its own, and the badge shows on products "4", "10" and "15" only |
| ProductDetailPage.FindProduct | src/pages/ProductDetail.tsx:18 | a found product is in the catalog and has the id; nothing is found exactly when no product has the id |
| ProductDetailPage.FindProductFirst | src/pages/ProductDetail.tsx:18 | the lookup returns the first product with the id |
| ProductDetailPage.NumberedLookup | src/pages/ProductDetail.tsx:18 | in a list whose ids are "1", "2", ... in order, each product is found by its own id and a number past the end finds nothing |
| ProductDetailPage.CatalogLookup | src/pages/ProductDetail.tsx:18 | on the catalog every product is found by its own id, and any number past 15, such as "16", finds nothing |
| ProductDetailPage.NotFoundView | src/pages/ProductDetail.tsx:18-32 | the not-found view shows exactly when no product has the id; otherwise the view shows that product |
| ProductDetailPage.StockControlsAgree | src/pages/ProductDetail.tsx:125-172 | the add button is disabled exactly for out-of-stock products, the stock badge says so, and the quantity buttons are disabled at 1 and from 10 |
| ProductDetailPage.QuantityStaysInRange | src/pages/ProductDetail.tsx:143-159 | from a quantity in 1..10, any series of presses keeps it in 1..10 |
| ProductDetailPage.StepsUndo | src/pages/ProductDetail.tsx:143-159 | below 10, decrease undoes increase; above 1, increase undoes decrease |
| ProductDetailPage.AddToCartCounts | src/pages/ProductDetail.tsx:34-52 | an in-stock product is added exactly `quantity` times and the confirmation comes after the adds; an out-of-stock one is never added and gets the refusal, exactly then |
| ProductDetailPage.DetailPage.constructor | src/pages/ProductDetail.tsx:16-18 | the page looks the route's id up in the catalog and starts at quantity 1 with nothing issued |
| ProductDetailPage.DetailPage.PressDecrease | src/pages/ProductDetail.tsx:143-144 | the quantity steps down, never below 1, and stays in 1..10 |
| ProductDetailPage.DetailPage.PressIncrease | src/pages/ProductDetail.tsx:158-159 | the quantity steps up, never past 10, and stays in 1..10 |
| ProductDetailPage.DetailPage.HandleAddToCart | src/pages/ProductDetail.tsx:34-52 | the loop appends exactly the effects `AddToCartEffects` specifies: the refusal, or `quantity` adds then the confirmation |
| ProductDetailPage.DetailPage.PressAddToCart | src/pages/ProductDetail.tsx:170-172 | pressing add changes nothing for an out-of-stock product, and runs the handler for an in-stock one |
| CartPage.Render | src/pages/Cart.tsx:13-49 | the empty-cart view shows exactly when there are no items; otherwise one line per item in engine order, header and subtotal showing the engine's item count |
| CartPage.Lines | src/pages/Cart.tsx:48-130 | line i shows item i's product id and quantity, price times quantity, and a decrease button disabled exactly at quantity 1 or less |
| CartPage.RemovePress | src/pages/Cart.tsx:74 | the trash control asks the engine to remove the line's product |
| CartPage.DecreasePress | src/pages/Cart.tsx:97-98 | decrease asks for exactly the quantity minus one for the line's product, which is never below 1; it issues nothing at quantity 1 or less |
| CartPage.IncreasePress | src/pages/Cart.tsx:112 | increase asks for exactly the quantity plus one for the line's product |
| CartPage.ControlsTargetTheirLine | src/pages/Cart.tsx:74-113 | every command a line issues names that line's product, and decrease issues exactly when its button is enabled |
| CartPage.DecreaseUndoesIncrease | src/pages/Cart.tsx:97-112 | decrease after increase requests the original quantity |
| CartPage.IncreaseHasNoCap | src/pages/Cart.tsx:110-114 | the cart's increase requests 11 from 10: no cap, unlike the product page |
| CartPage.DecreaseAtOneIssuesNothing | src/pages/Cart.tsx:97-98 | at quantity 1 decrease issues nothing; only the remove control takes the line away |
| CartPage.ProceedPress | src/pages/Cart.tsx:183-190 | the checkout button exists exactly on the listing, and it navigates to /checkout |
| CheckoutPage.ProceedOpensForm | src/pages/Checkout.tsx:63-66 | following the cart's checkout button always finds the form ready to confirm; without items there is no button and checkout redirects |
| CheckoutPage.WithField | src/pages/Checkout.tsx:26-29 | an input change sets its own field and leaves the other four as they were |
| CheckoutPage.WithFieldLaws | src/pages/Checkout.tsx:28 | writing a field's own value back changes nothing; of two writes to a field the last one wins |
| CheckoutPage.FirstEmpty | src/pages/Checkout.tsx:36-45 | the fields before the reported position are all filled in, and the reported one is empty |
| CheckoutPage.ValidateSpec | src/pages/Checkout.tsx:35-45 | validation reports field f exactly when f is empty and all earlier fields are filled in; it reports nothing exactly when all five are filled in |
| CheckoutPage.ValidationIgnoresLaterFields | src/pages/Checkout.tsx:36-44 | changing fields after the first empty one does not change what is reported |
| CheckoutPage.WhitespacePasses | src/pages/Checkout.tsx:37 | a form of single spaces passes validation: nothing is trimmed |
| CheckoutPage.MissingFieldMessages | src/pages/Checkout.tsx:40 | the messages read "Please fill in your name." and so on, and "zip code" for zipCode |
| CheckoutPage.MissingFieldMessageNamesField | src/pages/Checkout.tsx:40 | two fields get the same message exactly when they are the same field |
| CheckoutPage.SubmitProtocol | src/pages/Checkout.tsx:31-61 | a rejected submit shows one error naming the field and keeps the flag; an accepted one sets the flag, clears the cart exactly once, ends with the clear and the replacing navigation home, and never adds items; in both, every clear is immediately followed by the navigation home |
| CheckoutPage.NavigateHomeCount | src/pages/Checkout.tsx:58-60 | a submission navigates home exactly as often as it clears the cart |
| CheckoutPage.CheckoutGateMatchesCart | src/pages/Checkout.tsx:63-66 | checkout redirects exactly when the cart page shows its empty view; the shown form's button is disabled exactly while processing |
| CheckoutPage.Checkout.constructor | src/pages/Checkout.tsx:17-24 | the page starts with five empty fields, not processing, nothing issued |
| CheckoutPage.Checkout.Render | src/pages/Checkout.tsx:63-66 | with no items the page issues a navigation to /cart and shows no form; the invariant is kept |
| CheckoutPage.Checkout.HandleInputChange | src/pages/Checkout.tsx:26-29 | the edited field takes the value, the other fields keep theirs |
| CheckoutPage.Checkout.HandleSubmit | src/pages/Checkout.tsx:31-61 | the loop over the fields leaves the flag and the log exactly as `Submit` specifies |
| CheckoutPage.Checkout.PressConfirm | src/pages/Checkout.tsx:183-190 | while processing the button does nothing; otherwise it submits; the cart is never cleared twice, and each clear is immediately followed by the navigation home |

## Left out

- The cart engine (`src/context/CartContext`) is not part of this model. Totals, item counts and what the commands do to the cart are only displayed or issued.
- Router and notification rendering are not modelled. Routes, `Link` navigation and `src/App.tsx` are not part of this model.
- The 2000 ms processing delay is not modelled. The submission's effects are issued in one step, so interleavings during the delay are not covered beyond the disabled button.
- Browser-side `required` validation on the inputs is not modelled. The model covers only the handler's own check.
- Formatting with `toFixed(2)`, the 8% tax line and the rating stars are not modelled. These are floating-point display only.
- Prices are whole numbers (`int`). Every catalog price is whole, and floating-point arithmetic is not modelled.
- Text.ToLower lower-cases ASCII capitals only. JavaScript's `toLowerCase` covers all of Unicode; the field keys are ASCII.
- Text.NatToString renders non-negative whole numbers only. The counts it renders are lengths and quantities.
- The layout, navbar, home page and category filter buttons (`ProductFilter`) are presentational. They are left out.

## Findings

| source | as written | input that shows it | evidently intended | confidence | as-written member | corrected member |
|---|---|---|---|---|---|---|
| e2e/cart-checkout.spec.ts:394 | after choosing 'All', the test expects the count line not to contain "in" | the 'All' line "Showing 15 products" contains "in" inside "Showing" | the line has no " in C" category suffix | not executed | ProductsPage.AllLabelContainsIn | ProductsPage.CountLabelNamesCategory |
