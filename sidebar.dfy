/** The cart sidebar: the totalPrice fold, the header count, which blocks
    render, and the calls its controls make on the cart. */
module CartSidebar {
  import Cart
  import opened Wrappers

  /** totalPrice: cartItems.reduce((acc, item) => acc + item.price * item.quantity, 0),
      which is the cart subtotal, and 0 for an empty cart. */
  function TotalPrice(items: seq<Cart.CartItem>): (total: int)
    ensures total == Cart.Subtotal(items)
    ensures items == [] ==> total == 0
  {
    Cart.FoldBy(items, 0, Cart.LinePrice)
  }

  /** One rendered line: its displayed price and the call its trash button makes. */
  datatype SidebarLine = SidebarLine(item: Cart.CartItem, displayedPrice: int, onTrash: Cart.CartCall)

  datatype SidebarView =
    | Hidden
    | Shown(headerCount: nat, emptyMessage: bool, lines: seq<SidebarLine>, footerTotal: Option<int>)

  function LineOf(item: Cart.CartItem): SidebarLine {
    SidebarLine(item, item.product.price * item.quantity, Cart.Remove(item.uniqueId))
  }

  function Render(items: seq<Cart.CartItem>, isCartOpen: bool): (v: SidebarView)
    ensures v.Hidden? <==> !isCartOpen
    ensures v.Shown? ==> v.headerCount == |items|
    ensures v.Shown? ==> (v.emptyMessage <==> items == []) && (v.footerTotal.Some? <==> items != [])
    ensures v.Shown? ==> |v.lines| == |items|
    ensures v.Shown? ==> forall i :: 0 <= i < |items| ==>
      v.lines[i].item == items[i] && v.lines[i].onTrash == Cart.Remove(items[i].uniqueId)
  {
    if !isCartOpen then Hidden
    else
      Shown(|items|, items == [],
            seq(|items|, i requires 0 <= i < |items| => LineOf(items[i])),
            if items != [] then Some(TotalPrice(items)) else None)
  }

  function DisplayedPrice(line: SidebarLine): int { line.displayedPrice }

  /** The footer's total is the sum of the prices the lines display. */
  lemma FooterIsSumOfLines(items: seq<Cart.CartItem>)
    requires items != []
    ensures var v := Render(items, true);
      v.Shown? && v.footerTotal.Some? && v.footerTotal.value == Cart.SumBy(v.lines, DisplayedPrice)
  {
    LinesSum(items);
  }

  lemma {:induction false} LinesSum(items: seq<Cart.CartItem>)
    ensures Cart.SumBy(seq(|items|, i requires 0 <= i < |items| => LineOf(items[i])), DisplayedPrice) == Cart.Subtotal(items)
  {
    var lines := seq(|items|, i requires 0 <= i < |items| => LineOf(items[i]));
    if items != [] {
      LinesSum(items[1..]);
      assert lines[1..] == seq(|items[1..]|, i requires 0 <= i < |items[1..]| => LineOf(items[1..][i]));
    }
  }

  /** The sidebar's controls. */
  datatype Control = Backdrop | CloseButton | StartShopping | Trash(line: nat)

  /** The cart call a control makes. */
  function OnClick(control: Control, items: seq<Cart.CartItem>): (call: Cart.CartCall)
    requires control.Trash? ==> control.line < |items|
    ensures !control.Trash? <==> call == Cart.Toggle
    ensures control.Trash? ==> call == Cart.Remove(items[control.line].uniqueId)
  {
    match control
    case Trash(i) => Cart.Remove(items[i].uniqueId)
    case _ => Cart.Toggle
  }

  /** With unique keys, the trash button of line i, carried out by the cart,
      deletes exactly line i. */
  lemma TrashDeletesItsLine(items: seq<Cart.CartItem>, i: nat)
    requires Cart.UniqueKeys(items) && i < |items|
    ensures Cart.RemoveItem(items, OnClick(Trash(i), items).uniqueId) == items[..i] + items[i + 1..]
  {
    var key := items[i].uniqueId;
    assert Cart.HasKey(items, key);
    Cart.FindIndexUnique(items, key);
    Cart.RemoveUniqueKey(items, key);
  }
}
