/** The cart engine: an ordered list of line items, at most one per line key
    `${product.id}-${size}`, and the flag that says whether the cart panel is
    open. The list operations are stated as functions on sequences (what the
    provider's state setters compute from the previous list); the provider
    itself is the class CartEngine, whose fields the operations reassign. */
module Cart {
  import Radix
  import opened Wrappers

  /** A catalog product. Prices are whole numbers in the catalog. */
  datatype Product = Product(id: int, name: string, price: int, image: string, category: string)

  /** A product snapshot taken when the line was created, with the chosen
      size, the quantity and the line key. */
  datatype CartItem = CartItem(product: Product, selectedSize: string, quantity: int, uniqueId: string)

  /** The line key `${id}-${size}`. */
  function LineKey(id: int, size: string): (k: string)
    ensures |k| > |Radix.IntToString(id)| && k[|Radix.IntToString(id)|] == '-'
  {
    Radix.IntToString(id) + "-" + size
  }

  /** For non-negative ids the decimal id holds no '-', so the first '-' of a
      key ends the id: the key determines the (id, size) pair. */
  lemma LineKeyInjective(id1: int, size1: string, id2: int, size2: string)
    requires id1 >= 0 && id2 >= 0
    requires LineKey(id1, size1) == LineKey(id2, size2)
    ensures id1 == id2 && size1 == size2
  {
    var d1, d2 := Radix.ToRadix(id1, 10), Radix.ToRadix(id2, 10);
    var k := LineKey(id1, size1);
    assert k == d1 + "-" + size1 && k == d2 + "-" + size2;
    assert d1 == k[..|d1|] == d2;
    assert size1 == k[|d1| + 1..] == size2;
    Radix.ToRadixInjective(id1, id2, 10);
  }

  predicate HasKey(items: seq<CartItem>, key: string) {
    exists j :: 0 <= j < |items| && items[j].uniqueId == key
  }

  /** No two lines share a key. */
  predicate UniqueKeys(items: seq<CartItem>) {
    forall i, j :: 0 <= i < j < |items| ==> items[i].uniqueId != items[j].uniqueId
  }

  /** Array.prototype.findIndex on the key: the first line with that key, or -1. */
  function FindIndex(items: seq<CartItem>, key: string): (r: int)
    ensures -1 <= r < |items|
    ensures r == -1 <==> !HasKey(items, key)
    ensures r >= 0 ==> items[r].uniqueId == key && forall j :: 0 <= j < r ==> items[j].uniqueId != key
  {
    if items == [] then -1
    else if items[0].uniqueId == key then 0
    else
      var r := FindIndex(items[1..], key);
      assert forall j :: 1 <= j < |items| ==> items[j] == items[1..][j - 1];
      if r == -1 then -1 else r + 1
  }

  /** In a list with unique keys the line found is the only line with that key. */
  lemma FindIndexUnique(items: seq<CartItem>, key: string)
    requires UniqueKeys(items) && HasKey(items, key)
    ensures forall j :: 0 <= j < |items| && items[j].uniqueId == key ==> j == FindIndex(items, key)
  {
  }

  /** What addToCart's state update computes from the previous list. */
  function AddItem(items: seq<CartItem>, product: Product, size: string, quantity: int): (r: seq<CartItem>)
    ensures var key := LineKey(product.id, size);
      && HasKey(r, key)
      && (HasKey(items, key) ==>
            var i := FindIndex(items, key);
            && |r| == |items|
            && r[i].quantity == items[i].quantity + quantity
            && r[i].product == items[i].product && r[i].selectedSize == items[i].selectedSize
            && r[i].uniqueId == key
            && forall j :: 0 <= j < |items| && j != i ==> r[j] == items[j])
      && (!HasKey(items, key) ==>
            && |r| == |items| + 1
            && r[..|items|] == items
            && r[|items|] == CartItem(product, size, quantity, key))
  {
    var key := LineKey(product.id, size);
    var i := FindIndex(items, key);
    if i > -1 then items[i := items[i].(quantity := items[i].quantity + quantity)]
    else
      var r := items + [CartItem(product, size, quantity, key)];
      assert r[|items|].uniqueId == key;
      r
  }

  /** Adding keeps the keys unique. */
  lemma AddKeepsUnique(items: seq<CartItem>, product: Product, size: string, quantity: int)
    requires UniqueKeys(items)
    ensures UniqueKeys(AddItem(items, product, size, quantity))
  {
    var key := LineKey(product.id, size);
    var r := AddItem(items, product, size, quantity);
    if !HasKey(items, key) {
      forall i, j | 0 <= i < j < |r| ensures r[i].uniqueId != r[j].uniqueId {
        if j == |items| {
          assert r[i] == items[i];
        } else {
          assert r[i] == items[i] && r[j] == items[j];
        }
      }
    }
  }

  /** What removeFromCart's state update computes: Array.prototype.filter
      keeping the lines whose key differs, in their original order. */
  function RemoveItem(items: seq<CartItem>, key: string): (r: seq<CartItem>)
    ensures |r| <= |items|
    ensures !HasKey(r, key)
    ensures !HasKey(items, key) ==> r == items
  {
    if items == [] then []
    else
      var rest := RemoveItem(items[1..], key);
      assert !HasKey(items, key) ==> !HasKey(items[1..], key) by {
        if HasKey(items[1..], key) {
          var j :| 0 <= j < |items[1..]| && items[1..][j].uniqueId == key;
          assert items[j + 1].uniqueId == key;
        }
      }
      if items[0].uniqueId != key then [items[0]] + rest else rest
  }

  /** Filtering distributes over concatenation, so the kept lines stay in order. */
  lemma {:induction false} RemoveItemAppend(a: seq<CartItem>, b: seq<CartItem>, key: string)
    ensures RemoveItem(a + b, key) == RemoveItem(a, key) + RemoveItem(b, key)
  {
    if a != [] {
      assert (a + b)[1..] == a[1..] + b;
      RemoveItemAppend(a[1..], b, key);
    } else {
      assert a + b == b;
    }
  }

  /** In a list with unique keys, removing a present key deletes exactly the
      line that holds it and keeps every other line in place. */
  lemma {:induction false} RemoveUniqueKey(items: seq<CartItem>, key: string)
    requires UniqueKeys(items) && HasKey(items, key)
    ensures var i := FindIndex(items, key);
      RemoveItem(items, key) == items[..i] + items[i + 1..]
  {
    UniqueKeysTail(items);
    if items[0].uniqueId == key {
      RemoveHead(items, key);
    } else {
      var i := FindIndex(items, key);
      FindIndexStep(items, key);
      RemoveUniqueKey(items[1..], key);
      RemoveStep(items, key, i);
    }
  }

  /** Filtering out the first line's key when no other line has it. */
  lemma RemoveHead(items: seq<CartItem>, key: string)
    requires items != [] && items[0].uniqueId == key && !HasKey(items[1..], key)
    ensures FindIndex(items, key) == 0
    ensures RemoveItem(items, key) == items[..0] + items[1..]
  {
    assert items[..0] + items[1..] == items[1..];
  }

  /** Past a first line with another key, the search goes on in the rest. */
  lemma FindIndexStep(items: seq<CartItem>, key: string)
    requires HasKey(items, key) && items[0].uniqueId != key
    ensures FindIndex(items, key) >= 1
    ensures HasKey(items[1..], key) && FindIndex(items[1..], key) == FindIndex(items, key) - 1
  {
    var i := FindIndex(items, key);
    assert items[1..][i - 1] == items[i];
  }

  /** Filtering a list whose first line is kept: that line stays in front of
      the filtered rest. */
  lemma RemoveStep(items: seq<CartItem>, key: string, i: int)
    requires items != [] && items[0].uniqueId != key && 1 <= i < |items|
    requires RemoveItem(items[1..], key) == items[1..][..i - 1] + items[1..][i..]
    ensures RemoveItem(items, key) == items[..i] + items[i + 1..]
  {
    assert items[..i] + items[i + 1..] == [items[0]] + (items[1..][..i - 1] + items[1..][i..]);
  }

  /** The lines after the first keep unique keys, none of them the first line's. */
  lemma UniqueKeysTail(items: seq<CartItem>)
    requires UniqueKeys(items) && items != []
    ensures UniqueKeys(items[1..])
    ensures !HasKey(items[1..], items[0].uniqueId)
  {
    var tail := items[1..];
    forall j | 0 <= j < |tail|
      ensures tail[j].uniqueId != items[0].uniqueId
    {
      assert tail[j] == items[j + 1];
    }
  }

  /** Removing keeps the keys unique. */
  lemma RemoveKeepsUnique(items: seq<CartItem>, key: string)
    requires UniqueKeys(items)
    ensures UniqueKeys(RemoveItem(items, key))
    ensures !HasKey(RemoveItem(items, key), key)
  {
    if HasKey(items, key) {
      RemoveUniqueKey(items, key);
      var i := FindIndex(items, key);
      var r := RemoveItem(items, key);
      forall a, b | 0 <= a < b < |r| ensures r[a].uniqueId != r[b].uniqueId {
        var a', b' := if a < i then a else a + 1, if b < i then b else b + 1;
        assert r[a] == items[a'] && r[b] == items[b'];
      }
    }
  }

  // ---- folds over the lines ----

  /** The sum of w over a sequence, the specification of the folds below. */
  function SumBy<T>(xs: seq<T>, w: T -> int): int {
    if xs == [] then 0 else w(xs[0]) + SumBy(xs[1..], w)
  }

  /** Array.prototype.reduce((acc, item) => acc + w(item), acc): the left
      fold both totals are computed with. It adds the sum of w to its start. */
  function FoldBy(items: seq<CartItem>, acc: int, w: CartItem -> int): (r: int)
    ensures r == acc + SumBy(items, w)
  {
    if items == [] then acc else FoldBy(items[1..], acc + w(items[0]), w)
  }

  /** With no negative terms the sum is non-negative and at least each term. */
  lemma {:induction false} SumByBounds(items: seq<CartItem>, w: CartItem -> int)
    ensures (forall i :: 0 <= i < |items| ==> w(items[i]) >= 0) ==>
      SumBy(items, w) >= 0 && forall i :: 0 <= i < |items| ==> w(items[i]) <= SumBy(items, w)
  {
    if items != [] && forall i :: 0 <= i < |items| ==> w(items[i]) >= 0 {
      var t := items[1..];
      assert forall i :: 0 <= i < |t| ==> t[i] == items[i + 1];
      SumByBounds(t, w);
      forall i | 0 <= i < |items|
        ensures w(items[i]) <= SumBy(items, w)
      {
        if i > 0 {
          assert items[i] == t[i - 1];
        }
      }
    }
  }

  lemma {:induction false} SumByAppend(a: seq<CartItem>, b: seq<CartItem>, w: CartItem -> int)
    ensures SumBy(a + b, w) == SumBy(a, w) + SumBy(b, w)
  {
    if a != [] {
      assert (a + b)[1..] == a[1..] + b;
      SumByAppend(a[1..], b, w);
    } else {
      assert a + b == b;
    }
  }

  lemma SumBySingle(x: CartItem, w: CartItem -> int)
    ensures SumBy([x], w) == w(x)
  {
    assert [x][1..] == [];
  }

  lemma SumByUpdate(items: seq<CartItem>, i: nat, x: CartItem, w: CartItem -> int)
    requires i < |items|
    ensures SumBy(items[i := x], w) == SumBy(items, w) - w(items[i]) + w(x)
  {
    var a, b := items[..i], items[i + 1..];
    assert items == (a + [items[i]]) + b;
    assert items[i := x] == (a + [x]) + b;
    SumByAppend(a + [items[i]], b, w);
    SumByAppend(a, [items[i]], w);
    SumByAppend(a + [x], b, w);
    SumByAppend(a, [x], w);
    SumBySingle(items[i], w);
    SumBySingle(x, w);
  }

  lemma {:induction false} SumByDelete(items: seq<CartItem>, i: nat, w: CartItem -> int)
    requires i < |items|
    ensures SumBy(items[..i] + items[i + 1..], w) == SumBy(items, w) - w(items[i])
    decreases i
  {
    var rest := items[..i] + items[i + 1..];
    if i == 0 {
      assert rest == items[1..];
    } else {
      var t := items[1..];
      SumByDelete(t, i - 1, w);
      assert rest[0] == items[0];
      assert rest[1..] == t[..i - 1] + t[i..];
    }
  }

  function Quantity(item: CartItem): int { item.quantity }

  /** The price a line shows: unit price times quantity. */
  function LinePrice(item: CartItem): int { item.product.price * item.quantity }

  /** No line holds a negative quantity or has a negative price. */
  predicate NoNegativeLines(items: seq<CartItem>) {
    forall i :: 0 <= i < |items| ==> items[i].quantity >= 0 && items[i].product.price >= 0
  }

  /** The number of pieces in the cart: the sum of the quantities. With no
      negative line it is non-negative and no line holds more. */
  function TotalQuantity(items: seq<CartItem>): (n: int)
    ensures items == [] ==> n == 0
    ensures NoNegativeLines(items) ==> n >= 0 && forall i :: 0 <= i < |items| ==> items[i].quantity <= n
  {
    SumByBounds(items, Quantity);
    SumBy(items, Quantity)
  }

  /** The subtotal: the sum of price times quantity over the lines. With no
      negative line it is non-negative and at least each line's price. */
  function Subtotal(items: seq<CartItem>): (s: int)
    ensures items == [] ==> s == 0
    ensures NoNegativeLines(items) ==> s >= 0 && forall i :: 0 <= i < |items| ==> LinePrice(items[i]) <= s
  {
    SumByBounds(items, LinePrice);
    SumBy(items, LinePrice)
  }

  /** Adding q of a product raises totalItems by q, and the subtotal by q
      times the unit price of the line that received them. */
  lemma TotalsAfterAdd(items: seq<CartItem>, product: Product, size: string, quantity: int)
    ensures var r := AddItem(items, product, size, quantity);
      && TotalQuantity(r) == TotalQuantity(items) + quantity
      && Subtotal(r) == Subtotal(items) + r[FindIndex(r, LineKey(product.id, size))].product.price * quantity
  {
    var key := LineKey(product.id, size);
    var i := FindIndex(items, key);
    if i >= 0 {
      TotalsAfterAddExisting(items, product, size, quantity, i);
    } else {
      TotalsAfterAppend(items, product, size, quantity);
    }
  }

  lemma TotalsAfterAddExisting(items: seq<CartItem>, product: Product, size: string, quantity: int, i: int)
    requires i == FindIndex(items, LineKey(product.id, size)) && i >= 0
    ensures var r := AddItem(items, product, size, quantity);
      && TotalQuantity(r) == TotalQuantity(items) + quantity
      && Subtotal(r) == Subtotal(items) + r[FindIndex(r, LineKey(product.id, size))].product.price * quantity
  {
    var key := LineKey(product.id, size);
    var line := items[i];
    var x := line.(quantity := line.quantity + quantity);
    assert AddItem(items, product, size, quantity) == items[i := x];
    SumByUpdate(items, i, x, Quantity);
    SumByUpdate(items, i, x, LinePrice);
    FindIndexAfterUpdate(items, key, i, x);
    MulAdd(line.product.price, line.quantity, quantity);
  }

  /** Replacing the found line by one with the same key leaves it the one found. */
  lemma FindIndexAfterUpdate(items: seq<CartItem>, key: string, i: int, x: CartItem)
    requires 0 <= i < |items| && FindIndex(items, key) == i && x.uniqueId == key
    ensures FindIndex(items[i := x], key) == i
  {
    var r := items[i := x];
    assert forall j :: 0 <= j < i ==> r[j].uniqueId != key;
    assert r[i].uniqueId == key;
  }

  lemma TotalsAfterAppend(items: seq<CartItem>, product: Product, size: string, quantity: int)
    requires FindIndex(items, LineKey(product.id, size)) < 0
    ensures var r := AddItem(items, product, size, quantity);
      && TotalQuantity(r) == TotalQuantity(items) + quantity
      && Subtotal(r) == Subtotal(items) + r[FindIndex(r, LineKey(product.id, size))].product.price * quantity
  {
    var key := LineKey(product.id, size);
    var r := AddItem(items, product, size, quantity);
    var x := CartItem(product, size, quantity, key);
    assert r == items + [x];
    SumByAppend(items, [x], Quantity);
    SumByAppend(items, [x], LinePrice);
    SumBySingle(x, Quantity);
    SumBySingle(x, LinePrice);
    assert FindIndex(r, key) == |items|;
  }

  lemma MulAdd(p: int, a: int, q: int)
    ensures p * (a + q) == p * a + p * q
  {
  }

  /** Removing a key from a list with unique keys lowers totalItems by the
      removed line's quantity and the subtotal by its line price; an absent
      key changes neither. */
  lemma TotalsAfterRemove(items: seq<CartItem>, key: string)
    requires UniqueKeys(items)
    ensures var r := RemoveItem(items, key);
      var i := FindIndex(items, key);
      && (i >= 0 ==>
            TotalQuantity(r) == TotalQuantity(items) - items[i].quantity &&
            Subtotal(r) == Subtotal(items) - LinePrice(items[i]))
      && (i < 0 ==> TotalQuantity(r) == TotalQuantity(items) && Subtotal(r) == Subtotal(items))
  {
    var i := FindIndex(items, key);
    if i >= 0 {
      RemoveUniqueKey(items, key);
      SumByDelete(items, i, Quantity);
      SumByDelete(items, i, LinePrice);
    }
  }

  /** The empty cart has no items and a zero subtotal. */
  lemma TotalsOfEmpty()
    ensures TotalQuantity([]) == 0 && Subtotal([]) == 0
  {
  }

  /** A call a presentation surface makes on the cart. Close and
      UpdateQuantity are called by the slide-out panel but are not defined by
      the provider; they are recorded only as calls. */
  datatype CartCall = Remove(uniqueId: string) | Toggle | Close | UpdateQuantity(uniqueId: string, quantity: int)

  /** The cart provider's state. */
  class CartEngine {
    var cartItems: seq<CartItem>
    var isCartOpen: bool

    constructor ()
      ensures cartItems == [] && !isCartOpen
    {
      cartItems := [];
      isCartOpen := false;
    }

    /** The mount effect: a saved list that parsed (Some) replaces the
        current one; nothing saved or a parse failure (None) leaves it. */
    method LoadSaved(saved: Option<seq<CartItem>>)
      modifies this
      ensures cartItems == (if saved.Some? then saved.value else old(cartItems))
      ensures isCartOpen == old(isCartOpen)
    {
      if saved.Some? {
        cartItems := saved.value;
      }
    }

    method AddToCart(product: Product, size: string, quantity: int)
      modifies this
      ensures cartItems == AddItem(old(cartItems), product, size, quantity)
      ensures isCartOpen
      ensures UniqueKeys(old(cartItems)) ==> UniqueKeys(cartItems)
      ensures TotalQuantity(cartItems) == TotalQuantity(old(cartItems)) + quantity
    {
      if UniqueKeys(cartItems) {
        AddKeepsUnique(cartItems, product, size, quantity);
      }
      TotalsAfterAdd(cartItems, product, size, quantity);
      cartItems := AddItem(cartItems, product, size, quantity);
      isCartOpen := true;
    }

    method RemoveFromCart(uniqueId: string)
      modifies this
      ensures cartItems == RemoveItem(old(cartItems), uniqueId)
      ensures isCartOpen == old(isCartOpen)
      ensures UniqueKeys(old(cartItems)) ==> UniqueKeys(cartItems)
      ensures UniqueKeys(old(cartItems)) && HasKey(old(cartItems), uniqueId) ==>
        TotalQuantity(cartItems) == TotalQuantity(old(cartItems)) - old(cartItems)[FindIndex(old(cartItems), uniqueId)].quantity
    {
      if UniqueKeys(cartItems) {
        RemoveKeepsUnique(cartItems, uniqueId);
        TotalsAfterRemove(cartItems, uniqueId);
      }
      cartItems := RemoveItem(cartItems, uniqueId);
    }

    method ClearCart()
      modifies this
      ensures cartItems == [] && isCartOpen == old(isCartOpen)
      ensures TotalQuantity(cartItems) == 0 && Subtotal(cartItems) == 0
    {
      cartItems := [];
    }

    method ToggleCart()
      modifies this
      ensures isCartOpen == !old(isCartOpen) && cartItems == old(cartItems)
    {
      isCartOpen := !isCartOpen;
    }

    /** The provider's totalItems. */
    /** totalItems: the provider's left fold of the quantities from 0. */
    function TotalItems(): (n: int)
      reads this
      ensures n == TotalQuantity(cartItems)
    {
      FoldBy(cartItems, 0, Quantity)
    }
  }
}
