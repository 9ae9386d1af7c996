# MYNY storefront cart, checkout and widgets in Dafny

This project models the logic of the MYNY storefront, a Next.js/React shop:

- the **cart provider**: an ordered list of line items keyed by `${product.id}-${size}` and the flag for the cart panel;
- the two cart surfaces that read it: the **slide-out cart** and the **cart sidebar**;
- the four-step **checkout page** with its form, shipping methods, card mask and submit guard;
- the **order-confirmation page**, with its base-36 order number and the cart cleared on mount;
- three small state machines: the **audio player**'s playlist, the **product viewer**'s image, zoom and rotation, and the **size guide**'s tab lookup.

Each source file is one module, and each takes the form of its source.
- **State updated through setters becomes a class.** `Cart.CartEngine`, `Checkout.CheckoutPage`, `CheckoutSuccess.SuccessPage`, `AudioPlayer.Player`, `ProductViewer.Viewer` and `SizeGuide.SizeGuidePanel` each have fields and `modifies` clauses.
- **What a state setter computes from the previous state becomes a function on sequences.** Examples are `Cart.AddItem`, `Cart.RemoveItem` and `Checkout.Advance`. The methods are proved against these functions, and the functions' properties are proved as lemmas.
- **Rendering becomes a function.** It maps state to a view datatype that records which blocks appear, what they display, and which cart call each button makes.

Three helper modules are shared:
- `Radix` implements `Number.prototype.toString(radix)` for non-negative integers and decodes digits.
- `Ascii` implements `toUpperCase` and `toLowerCase` on the ASCII letters.
- `Cyclic` implements the `(i + 1) % n` and `(i - 1 + n) % n` stepping used by the player and the viewer.

Modelling choices:
- Prices, quantities and ids are unbounded integers. The catalog prices are whole numbers.
- A cart line holds its product as a nested `Product`. The source spreads the product's fields into the line instead; the fields are the same.
- The clock (`Date.now()`), the saved cart read from local storage, and the browser's refusal of `play()` enter as parameters or events.

The cart consumers read `subtotal`, `shipping`, `total`, `freeShippingThreshold` and `freeShippingProgress` from the cart and call `closeCart` and `updateQuantity`. The cart provider in `src/context/CartContext.tsx` defines none of these. The model handles them as follows:
- `subtotal` is the sum of price × quantity, as the sidebar computes it.
- The free-shipping threshold is a parameter.
- `shipping`, `total` and the progress percentage are inputs.
- `closeCart` and `updateQuantity` are recorded as the calls (`Cart.CartCall`) the buttons make, with no effect given to them.

## Model

| member | source | states |
|---|---|---|
| Radix.ToRadix | src/app/checkout/success/page.tsx:14 | `n.toString(b)` is at least one character, every character is a lower-case digit below the base, and it starts with '0' exactly when n is 0 |
| Radix.ValueOfToRadix | src/app/checkout/success/page.tsx:14 | reading the base-b digits of n back gives n |
| Radix.ToRadixInjective | src/app/checkout/success/page.tsx:14 | distinct numbers have distinct digit strings |
| Radix.IntToString | src/context/CartContext.tsx:47 | `${n}` is the decimal digits of n, preceded by '-' when n is negative |
| Ascii.ToUpper | src/app/checkout/success/page.tsx:14 | toUpperCase keeps the length and maps each character by itself |
| Ascii.ToLower | src/components/SizeGuide.tsx:59 | toLowerCase keeps the length and maps each character by itself |
| Cart.LineKey | src/context/CartContext.tsx:47 | the line key is the decimal id, a '-' just after it, then the size |
| Cart.LineKeyInjective | src/context/CartContext.tsx:47 | for non-negative ids, equal keys mean equal (id, size) pairs, so one line per key is one line per product and size |
| Cart.FindIndex | src/context/CartContext.tsx:48 | findIndex gives -1 exactly when no line has the key; otherwise it gives the first line that has it |
| Cart.FindIndexUnique | src/context/CartContext.tsx:48 | with unique keys, the line found is the only line with the key |
| Cart.AddItem | src/context/CartContext.tsx:46-67 | an existing key raises that line's quantity by q, keeping its product, size and key and every other line; a new key appends exactly one line (product, size, q, key) after the unchanged old lines |
| Cart.AddKeepsUnique | src/context/CartContext.tsx:47-66 | if no two lines share a key before an add, none do after |
| Cart.RemoveItem | src/context/CartContext.tsx:72 | the filter never lengthens the list, leaves no line with the key, and leaves a list without the key unchanged |
| Cart.RemoveItemAppend | src/context/CartContext.tsx:72 | filtering distributes over concatenation, so the kept lines keep their order |
| Cart.RemoveUniqueKey | src/context/CartContext.tsx:72 | with unique keys, removing a present key deletes exactly the line that has it and keeps the rest in order |
| Cart.RemoveKeepsUnique | src/context/CartContext.tsx:72 | removal keeps keys unique and leaves the key absent |
| Cart.FoldBy | src/context/CartContext.tsx:83 | `reduce((acc, item) => acc + w(item), acc)` adds the sum of w over the lines to its start value, so the left fold from 0 is the sum |
| Cart.SumByBounds | src/context/CartContext.tsx:83 | with no negative term, a sum over the lines is non-negative and at least each line's term |
| Cart.TotalQuantity | src/context/CartContext.tsx:83 | the piece count is 0 for an empty cart; when no line has a negative quantity or price it is non-negative and no line holds more than it |
| Cart.Subtotal | src/components/CartSidebar.tsx:13-16 | the subtotal is 0 for an empty cart; with no negative price or quantity it is non-negative and at least each line's price × quantity |
| Cart.SumByAppend | src/context/CartContext.tsx:83 | a sum over the lines splits over concatenation |
| Cart.SumByUpdate | src/context/CartContext.tsx:83 | replacing one line changes a sum by the difference of that line's weights |
| Cart.SumByDelete | src/context/CartContext.tsx:83 | deleting one line lowers a sum by that line's weight |
| Cart.TotalsAfterAdd | src/context/CartContext.tsx:45-83 | adding q raises totalItems by q and the subtotal by q times the receiving line's unit price |
| Cart.TotalsAfterRemove | src/context/CartContext.tsx:71-83 | with unique keys, removal lowers totalItems by the removed line's quantity and the subtotal by its line price; an absent key changes neither |
| Cart.TotalsOfEmpty | src/context/CartContext.tsx:75-83 | the emptied cart has totalItems 0 and subtotal 0 |
| Cart.CartEngine.constructor | src/context/CartContext.tsx:25-26 | the cart starts empty and closed |
| Cart.CartEngine.LoadSaved | src/context/CartContext.tsx:29-38 | a saved, parsed list replaces the lines; nothing saved or a parse failure leaves them; the open flag is untouched |
| Cart.CartEngine.AddToCart | src/context/CartContext.tsx:45-69 | the lines become AddItem of the old lines, the cart is open, unique keys stay unique, and totalItems rises by q |
| Cart.CartEngine.RemoveFromCart | src/context/CartContext.tsx:71-73 | the lines become RemoveItem of the old lines, the open flag is untouched, unique keys stay unique, and totalItems falls by the removed line's quantity |
| Cart.CartEngine.ClearCart | src/context/CartContext.tsx:75-77 | the lines become empty (so a second clear changes nothing), the open flag is untouched, and both totals are 0 |
| Cart.CartEngine.ToggleCart | src/context/CartContext.tsx:79-81 | the open flag flips and the lines are untouched |
| Cart.CartEngine.TotalItems | src/context/CartContext.tsx:83 | totalItems, the left fold of the quantities from 0, is the piece count of the current lines |
| Checkout.StepIndex | src/app/checkout/page.tsx:54 | currentStepIndex is in 0..3, names the current step, and is the only index that does |
| Checkout.Advance | src/app/checkout/page.tsx:63-68 | Continue moves to index + 1 below the last step and stays at Review |
| Checkout.Retreat | src/app/checkout/page.tsx:70-75 | Back moves to index - 1 above the first step and stays at Information |
| Checkout.AdvanceRetreatInverse | src/app/checkout/page.tsx:63-75 | Back after Continue from any step but Review restores the step, and Continue after Back from any step but Information does too |
| Checkout.AdvanceTimesIndex | src/app/checkout/page.tsx:63-68 | n presses of Continue reach index min(index + n, 3) |
| Checkout.ReachReview | src/app/checkout/page.tsx:21-28 | from Information, three or more presses reach Review and two do not |
| Checkout.ActiveFlags | src/app/checkout/page.tsx:112 | a step of the indicator is active exactly when its index is currentStepIndex |
| Checkout.CompletedFlags | src/app/checkout/page.tsx:113 | a step is completed exactly when it comes before the current step, so the completed steps form a prefix and the current step is not among them |
| Checkout.ProgressIndicator | src/app/checkout/page.tsx:111-113 | exactly one step is active, the number of completed steps is currentStepIndex, and no step is both |
| Checkout.StandardShipping | src/app/checkout/page.tsx:306 | Standard costs 0 or 15, and 0 exactly when the subtotal reaches the threshold |
| Checkout.ShippingOptions | src/app/checkout/page.tsx:305-309 | three methods in order: standard at the Standard price, express at 25, overnight at 45 |
| Checkout.CheckedRows | src/app/checkout/page.tsx:312-322 | a shipping row is checked exactly when its id is the selected method |
| Checkout.ChoosingAMethodChecksOnlyIt | src/app/checkout/page.tsx:305-335 | choosing a row's method checks that row and only it; the initial form checks Standard alone |
| Checkout.PriceLabel | src/app/checkout/page.tsx:579-581 | the label is "FREE" exactly when the price is 0, and otherwise "$" and the decimal price |
| Checkout.LastFour | src/app/checkout/page.tsx:454 | slice(-4) is the suffix of length min(4, length) |
| Checkout.CardMask | src/app/checkout/page.tsx:454 | the mask is "****" for an empty card number, and otherwise the card number's last min(4, length) characters |
| Checkout.Summary | src/app/checkout/page.tsx:540-587 | the order summary shows one price × quantity per line, the subtotal, a shipping label that is "FREE" exactly when shipping is 0, and the total; it has no form input, so the chosen shipping method cannot change it |
| Checkout.Render | src/app/checkout/page.tsx:85-530 | an empty cart renders only the empty notice; otherwise Back is disabled exactly at Information, Place Order replaces Continue exactly at Review and is disabled exactly while processing |
| Checkout.InitialForm | src/app/checkout/page.tsx:37-52 | every form field starts empty except the shipping method, which starts on "standard" |
| Checkout.CheckoutPage.constructor | src/app/checkout/page.tsx:33-52 | the page starts at Information, not processing, with the initial form |
| Checkout.CheckoutPage.NextStep | src/app/checkout/page.tsx:63-68 | the step becomes Advance of the old one, so the index becomes min(index + 1, 3); the rest of the state is untouched |
| Checkout.CheckoutPage.PrevStep | src/app/checkout/page.tsx:70-75 | the step becomes Retreat of the old one, so the index becomes max(index - 1, 0); the rest of the state is untouched |
| Checkout.CheckoutPage.HandleInputChange | src/app/checkout/page.tsx:56-61 | the named field takes the value, and every other field keeps its presence and value |
| Checkout.CheckoutPage.HandleSubmitOrder | src/app/checkout/page.tsx:77-78 | submitting sets the processing flag and changes nothing else |
| SlideOutCart.AmountUntilFreeShipping | src/components/SlideOutCart.tsx:39 | the amount left is never negative; it is 0 exactly when the subtotal reaches the threshold, and otherwise it brings the subtotal up to the threshold |
| SlideOutCart.ItemsWord | src/components/SlideOutCart.tsx:71 | the header says "item" exactly when totalItems is 1, and "items" otherwise |
| SlideOutCart.LineViewOf | src/components/SlideOutCart.tsx:167-207 | a line shows price × quantity; its remove button removes its own key; minus and plus ask for its own key with the quantity one below and one above |
| SlideOutCart.Render | src/components/SlideOutCart.tsx:43-236 | the panel shows exactly when the cart is open, with: the header count as the sum of quantities; the banner exactly when the subtotal is positive, unlocked exactly at progress 100; the empty notice exactly with no lines; the footer exactly with some lines; the close button calling closeCart |
| SlideOutCart.EmptyNoticeXorFooter | src/components/SlideOutCart.tsx:113-219 | the empty notice and the footer never show together, and one of them always shows |
| SlideOutCart.RemoveButtonDeletesItsLine | src/components/SlideOutCart.tsx:168 | with unique keys, line i's remove button, carried out by the cart, deletes exactly line i |
| SlideOutCart.BannerAmountCompletesThreshold | src/components/SlideOutCart.tsx:84-94 | below the threshold, the banner's amount plus the subtotal is the threshold |
| CartSidebar.TotalPrice | src/components/CartSidebar.tsx:13-16 | totalPrice, the left fold of price × quantity from 0, is the cart subtotal, and 0 for an empty cart |
| CartSidebar.Render | src/components/CartSidebar.tsx:20-113 | the sidebar shows exactly when the cart is open, with: a header count of the number of lines (not the quantities); the empty message exactly with no lines; the footer exactly with some lines; one line per item whose trash button removes that item's key |
| CartSidebar.FooterIsSumOfLines | src/components/CartSidebar.tsx:100-120 | the footer total is the sum of the prices the lines show |
| CartSidebar.LinesSum | src/components/CartSidebar.tsx:100 | the line prices add up to the subtotal |
| CartSidebar.OnClick | src/components/CartSidebar.tsx:27-86 | the backdrop, close and Start Shopping buttons toggle the cart; the trash button of a line removes that line's key |
| CartSidebar.TrashDeletesItsLine | src/components/CartSidebar.tsx:86 | with unique keys, line i's trash button, carried out by the cart, deletes exactly line i |
| CheckoutSuccess.OrderNumber | src/app/checkout/success/page.tsx:14 | the order number is "MYNY-" then only 0-9 and A-Z, with a leading 0 exactly for timestamp 0 |
| CheckoutSuccess.ParseOrderNumber | src/app/checkout/success/page.tsx:14 | the decoder accepts only strings that carry the prefix |
| CheckoutSuccess.OrderNumberRoundTrip | src/app/checkout/success/page.tsx:14 | decoding the order number returns the timestamp |
| CheckoutSuccess.OrderNumberInjective | src/app/checkout/success/page.tsx:14 | distinct timestamps give distinct order numbers |
| CheckoutSuccess.SuccessPage.constructor | src/app/checkout/success/page.tsx:14-19 | mounting fixes the order number from the clock reading and empties the cart without touching its open flag |
| CheckoutSuccess.SuccessPage.RerunClearEffect | src/app/checkout/success/page.tsx:17-19 | the effect running again leaves the cart empty, leaves an empty cart as it was, and cannot change the order number (a constant field) |
| Cyclic.Next | src/components/AudioPlayer.tsx:34 | (i + 1) % n stays below n, counts up below the end, and wraps to 0 at the end |
| Cyclic.Prev | src/components/AudioPlayer.tsx:39 | (i - 1 + n) % n stays below n, counts down above 0, and wraps from 0 to n - 1 |
| Cyclic.NextPrevInverse | src/components/AudioPlayer.tsx:33-41 | previous undoes next and next undoes previous |
| Cyclic.NextTimesBelow | src/components/AudioPlayer.tsx:34 | k steps that do not reach the end count up by k |
| Cyclic.NextTimesAdd | src/components/AudioPlayer.tsx:34 | a steps then b steps are a + b steps |
| Cyclic.FullCircle | src/components/AudioPlayer.tsx:34 | n steps forward return to the start |
| AudioPlayer.Player.constructor | src/components/AudioPlayer.tsx:9-10 | the player starts paused on track 0 |
| AudioPlayer.Player.CurrentTrack | src/components/AudioPlayer.tsx:13 | the current track is a playlist track, and its id is the index plus 1 |
| AudioPlayer.Player.TogglePlay | src/components/AudioPlayer.tsx:29-31 | play/pause flips the playing flag and keeps the track |
| AudioPlayer.Player.NextTrack | src/components/AudioPlayer.tsx:33-36 | the track becomes the next one cyclically, within the playlist, and the player plays |
| AudioPlayer.Player.PrevTrack | src/components/AudioPlayer.tsx:38-41 | the track becomes the previous one cyclically, within the playlist, and the player plays |
| AudioPlayer.Player.HandleEnded | src/components/AudioPlayer.tsx:43-45 | a track that ends moves on exactly as the next button does |
| AudioPlayer.Player.PlaybackRefused | src/components/AudioPlayer.tsx:18-22 | a refused play() leaves the player paused on the same track |
| AudioPlayer.PlaylistCycle | src/data/playlist.ts:8-27 | three presses of next return to the starting track, and previous from the first track goes to the third |
| ProductViewer.ZoomIn | src/components/ProductViewer3D.tsx:48 | zoom in adds a quarter and never exceeds 3 (12 quarters) |
| ProductViewer.ZoomOut | src/components/ProductViewer3D.tsx:49 | zoom out takes away a quarter and never goes below 0.5 (2 quarters) |
| ProductViewer.ClampTilt | src/components/ProductViewer3D.tsx:78 | the tilt is clamped into [-30, 30], and a value already inside is kept |
| ProductViewer.ZoomRoundTrip | src/components/ProductViewer3D.tsx:48-49 | strictly inside the range, zooming in then out, or out then in, changes nothing |
| ProductViewer.Viewer.constructor | src/components/ProductViewer3D.tsx:30-35 | the viewer starts on image 0 at scale 1, in 3D mode, unrotated and not dragging |
| ProductViewer.Viewer.Opened | src/components/ProductViewer3D.tsx:39-45 | opening resets the scale to 1, the rotation to (0, 0) and the image to 0 |
| ProductViewer.Viewer.HandleZoomIn | src/components/ProductViewer3D.tsx:48 | the scale steps up within [0.5, 3] and is unchanged at 3; the frame names the scale alone, so image, mode, rotation and dragging are untouched |
| ProductViewer.Viewer.HandleZoomOut | src/components/ProductViewer3D.tsx:49 | the scale steps down within [0.5, 3] and is unchanged at 0.5; the frame names the scale alone, so image, mode, rotation and dragging are untouched |
| ProductViewer.Viewer.HandleReset | src/components/ProductViewer3D.tsx:50-53 | reset sets scale 1 and rotation (0, 0); its frame names only those, so image, mode and dragging are untouched |
| ProductViewer.Viewer.HandleWheel | src/components/ProductViewer3D.tsx:56-63 | a wheel turn with negative deltaY zooms in; any other turn, including 0, zooms out; only the scale can change |
| ProductViewer.Viewer.HandleMouseDown | src/components/ProductViewer3D.tsx:66-70 | outside 3D mode nothing changes; in 3D mode dragging starts at the pointer; its frame names only the dragging flag and the drag start, so image, mode, scale and rotation are untouched |
| ProductViewer.Viewer.HandleMouseMove | src/components/ProductViewer3D.tsx:72-83 | unless dragging in 3D mode nothing changes; otherwise the tilt moves by 0.2 × deltaY clamped to [-30, 30], the turn by 0.3 × deltaX, and the drag start follows the pointer |
| ProductViewer.Viewer.HandleMouseUp | src/components/ProductViewer3D.tsx:85 | releasing the mouse stops dragging; its frame names only the dragging flag, so nothing else changes |
| ProductViewer.Viewer.SetMode | src/components/ProductViewer3D.tsx:270-285 | the 2D and 3D buttons set the mode; the frame names only the mode, so nothing else changes |
| ProductViewer.Viewer.NextImage | src/components/ProductViewer3D.tsx:88-92 | the image becomes the next one cyclically and the turn grows by 180; only the image and the turn can change |
| ProductViewer.Viewer.PrevImage | src/components/ProductViewer3D.tsx:94-97 | the image becomes the previous one cyclically and the turn shrinks by 180; only the image and the turn can change |
| ProductViewer.Viewer.SelectImage | src/components/ProductViewer3D.tsx:221 | a dot click selects that image; only the image can change |
| ProductViewer.NextThenPrev | src/components/ProductViewer3D.tsx:88-97 | next then previous restores both the image and the turn, and touches nothing else |
| SizeGuide.TabsAreTables | src/components/SizeGuide.tsx:106-109 | the tab buttons are exactly the table keys, each once |
| SizeGuide.TablesWellFormed | src/components/SizeGuide.tsx:14-54 | every row of every table has one cell per header, the first header is "Size", and jackets, sweaters and tshirts list S, M, L, XL in order |
| SizeGuide.CurrentData | src/components/SizeGuide.tsx:62 | the lookup is defined for the table keys and yields a well-formed table |
| SizeGuide.InitialTabAsWritten | src/components/SizeGuide.tsx:56-60 | the initial tab as written: "jackets" when there is no category or it is empty, otherwise the category lower-cased |
| SizeGuide.CatalogCategoriesMissTables | src/components/SizeGuide.tsx:58-62 | the catalog categories "T-Shirts" and "Hoodies" give tabs with no table, and "Headwear" gives one with a table |
| SizeGuide.InitialTab | src/components/SizeGuide.tsx:56-60 | the corrected initial tab always has a table and agrees with the original wherever the original has one |
| SizeGuide.SizeGuidePanel.constructor | src/components/SizeGuide.tsx:58-60 | the panel opens on the corrected initial tab, which has a table |
| SizeGuide.SizeGuidePanel.SelectTab | src/components/SizeGuide.tsx:106-109 | clicking a tab makes it active, and the lookup then succeeds |
| SizeGuide.SizeGuidePanel.Shown | src/components/SizeGuide.tsx:62 | the table shown is the active tab's table, and it is well formed |

## Left out

- Persistence: reading and writing local storage and the JSON (de)serialisation of the cart are not modelled. A loaded cart is an input (`Cart.CartEngine.LoadSaved`). It is not checked, so key uniqueness is proved as preserved by each operation rather than as a class invariant.
- The provider's missing members: `updateQuantity`, `closeCart`, `shipping`, `total` and `freeShippingProgress` are used by the panel and the checkout page but defined nowhere in the modelled source. They appear only as recorded calls or inputs. If `subtotal` is in fact undefined at run time, `subtotal.toLocaleString()` would throw, both on the checkout page and in the slide-out cart's footer (src/components/SlideOutCart.tsx:225). The model assumes a number.
- Aliasing: `addToCart` copies the array but increments the quantity on the shared line object. If the updater runs twice (React strict mode), the quantity rises twice. The model treats the updater as pure.
- React batching and stale closures are not modelled. Handlers are sequential method calls on the current state.
- The redirect and the two-second delay after Place Order are not modelled. Only the processing flag is.
- The clock reading is a parameter of the success page.
- The audio element's play and pause effects are not modelled. Only the refused-play event is.
- Keyboard (Escape) listeners, scroll locking, cursor variants, animations and layout are not modelled.
- Number formatting: `toLocaleString`, `toFixed` and `Math.round(scale * 100)` are not modelled. Prices are printed as plain decimals, as in `$${price}`.
- `Radix.ToRadix` covers non-negative integers only. `Date.now()` is non-negative and JavaScript's exponent form for very large numbers is not reached.
- `Ascii.ToUpper` and `Ascii.ToLower` map ASCII letters only. The strings they meet here are digits and ASCII category names.
- ProductViewer.Viewer.NextImage: requires a non-empty image list. With no images, `% images.length` yields NaN in JavaScript, which has no counterpart here.
- ProductViewer.Viewer.PrevImage: requires a non-empty image list, for the same reason.
- ProductViewer.Viewer.HandleMouseMove: rotation angles are exact reals. Floating-point rounding of the 0.2 and 0.3 factors and of ±180 is not modelled.
- CheckoutSuccess.SuccessPage.RerunClearEffect: states only what one re-run does to the cart's value. `clearCart` is a new closure on every render of the provider (src/context/CartContext.tsx:75-77), and `setCartItems([])` stores a new array each time. The effect that depends on it (src/app/checkout/success/page.tsx:17-19) would therefore fire again after every clear it causes, re-rendering and writing local storage without end. The model has no render cycle and cannot show that this never settles.

## Findings

| source | as written | input that shows it | evidently intended | confidence | as-written member | corrected member |
|---|---|---|---|---|---|---|
| src/components/SizeGuide.tsx:58-62 | the initial tab is the lower-cased category, never checked against the table keys | category "T-Shirts" (a catalog category, src/data/products.ts:15) gives tab "t-shirts"; `sizeData["t-shirts"]` is undefined, and reading its headers when the guide opens fails | a category that names no table falls back to "jackets", as a missing or empty one does | medium, not executed; no caller passing a category is in the modelled source | SizeGuide.CatalogCategoriesMissTables | SizeGuide.InitialTab |
