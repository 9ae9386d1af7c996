/** The slide-out cart panel: what it derives from the cart's state (the
    amount left until free shipping, the item-count wording, which blocks
    render) and the calls its buttons make on the cart. The panel reads
    shipping, total and freeShippingProgress from the cart and calls
    closeCart and updateQuantity, none of which the cart provider defines:
    they enter here as inputs and as recorded calls. */
module SlideOutCart {
  import Cart
  import Checkout
  import opened Wrappers

  /** Math.max(0, threshold - subtotal). */
  function AmountUntilFreeShipping(threshold: int, subtotal: int): (r: int)
    ensures r >= 0
    ensures r == 0 <==> subtotal >= threshold
    ensures r > 0 ==> subtotal + r == threshold
  {
    if threshold - subtotal > 0 then threshold - subtotal else 0
  }

  /** The word after the item count in the header. */
  function ItemsWord(totalItems: int): (w: string)
    ensures w == "item" || w == "items"
    ensures w == "item" <==> totalItems == 1
  {
    if totalItems == 1 then "item" else "items"
  }

  /** One rendered line: its displayed price and the calls its remove,
      minus and plus buttons make. */
  datatype LineView = LineView(item: Cart.CartItem, displayedPrice: int,
                               onRemove: Cart.CartCall, onMinus: Cart.CartCall, onPlus: Cart.CartCall)

  function LineViewOf(item: Cart.CartItem): (v: LineView)
    ensures v.item == item && v.displayedPrice == item.product.price * item.quantity
    ensures v.onRemove == Cart.Remove(item.uniqueId)
    ensures v.onMinus.UpdateQuantity? && v.onMinus.uniqueId == item.uniqueId && item.quantity - v.onMinus.quantity == 1
    ensures v.onPlus.UpdateQuantity? && v.onPlus.uniqueId == item.uniqueId && v.onPlus.quantity - item.quantity == 1
  {
    LineView(item, Cart.LinePrice(item),
             Cart.Remove(item.uniqueId),
             Cart.UpdateQuantity(item.uniqueId, item.quantity - 1),
             Cart.UpdateQuantity(item.uniqueId, item.quantity + 1))
  }

  /** The free-shipping banner. */
  datatype Banner = Banner(unlocked: bool, amountLeft: int, progress: int)

  /** The summary footer. */
  datatype Footer = Footer(subtotal: int, shippingText: string, total: int)

  datatype PanelView =
    | Closed
    | Open(totalItems: int, itemsWord: string, banner: Option<Banner>, emptyNotice: bool,
           lines: seq<LineView>, footer: Option<Footer>, onClose: Cart.CartCall)

  /** The panel for the given cart. `shipping`, `total` and `progress` are
      the cart's values of those names, taken as given. */
  function Render(items: seq<Cart.CartItem>, isCartOpen: bool, threshold: int,
                  shipping: int, total: int, progress: int): (v: PanelView)
    ensures v.Closed? <==> !isCartOpen
    ensures v.Open? ==> v.totalItems == Cart.TotalQuantity(items) && (v.itemsWord == "item" <==> v.totalItems == 1)
    ensures v.Open? ==> (v.banner.Some? <==> Cart.Subtotal(items) > 0)
    ensures v.Open? && v.banner.Some? ==>
      && (v.banner.value.unlocked <==> progress >= 100)
      && v.banner.value.amountLeft == AmountUntilFreeShipping(threshold, Cart.Subtotal(items))
    ensures v.Open? ==> (v.emptyNotice <==> |items| == 0) && (v.footer.Some? <==> |items| > 0)
    ensures v.Open? ==> |v.lines| == |items| && forall i :: 0 <= i < |items| ==> v.lines[i] == LineViewOf(items[i])
    ensures v.Open? && v.footer.Some? ==>
      v.footer.value.subtotal == Cart.Subtotal(items) && (v.footer.value.shippingText == "FREE" <==> shipping == 0)
    ensures v.Open? ==> v.onClose == Cart.Close
  {
    if !isCartOpen then Closed
    else
      var subtotal := Cart.Subtotal(items);
      var totalItems := Cart.TotalQuantity(items);
      Open(totalItems, ItemsWord(totalItems),
           if subtotal > 0 then Some(Banner(progress >= 100, AmountUntilFreeShipping(threshold, subtotal), progress)) else None,
           |items| == 0,
           seq(|items|, i requires 0 <= i < |items| => LineViewOf(items[i])),
           if |items| > 0 then Some(Footer(subtotal, Checkout.PriceLabel(shipping), total)) else None,
           Cart.Close)
  }

  /** The empty notice and the footer never show together, and one of them always does. */
  lemma EmptyNoticeXorFooter(items: seq<Cart.CartItem>, threshold: int, shipping: int, total: int, progress: int)
    ensures var v := Render(items, true, threshold, shipping, total, progress);
      v.Open? && v.emptyNotice != v.footer.Some?
  {
  }

  /** With unique keys, the remove button of line i, carried out by the
      cart, deletes exactly line i. */
  lemma RemoveButtonDeletesItsLine(items: seq<Cart.CartItem>, i: nat)
    requires Cart.UniqueKeys(items) && i < |items|
    ensures Cart.RemoveItem(items, LineViewOf(items[i]).onRemove.uniqueId) == items[..i] + items[i + 1..]
  {
    var key := items[i].uniqueId;
    assert Cart.HasKey(items, key);
    Cart.FindIndexUnique(items, key);
    Cart.RemoveUniqueKey(items, key);
  }

  /** Below the threshold the amount left and the subtotal add up to the threshold. */
  lemma BannerAmountCompletesThreshold(items: seq<Cart.CartItem>, threshold: int, shipping: int, total: int, progress: int)
    requires 0 < Cart.Subtotal(items) < threshold
    ensures var v := Render(items, true, threshold, shipping, total, progress);
      v.Open? && v.banner.Some? && v.banner.value.amountLeft > 0
      && Cart.Subtotal(items) + v.banner.value.amountLeft == threshold
  {
  }
}
