/** The order-confirmation page: the order number "MYNY-" followed by the
    upper-cased base-36 digits of the clock reading taken once at mount, and
    the effect that empties the cart. The clock reading is a parameter. */
module CheckoutSuccess {
  import Radix
  import Ascii
  import Cart
  import opened Wrappers

  const Prefix: string := "MYNY-"

  /** `MYNY-${timestamp.toString(36).toUpperCase()}`. */
  function OrderNumber(timestamp: nat): (s: string)
    ensures |s| > |Prefix| && s[..|Prefix|] == Prefix
    ensures forall i :: |Prefix| <= i < |s| ==> Radix.IsUpperDigit(s[i])
    ensures s[|Prefix|] == '0' <==> timestamp == 0
  {
    var digits := Radix.ToRadix(timestamp, 36);
    Radix.UpperKeepsDigits(digits, 36);
    Prefix + Ascii.ToUpper(digits)
  }

  /** Reads an order number back: the prefix, then base-36 digits. */
  function ParseOrderNumber(s: string): (r: Option<nat>)
    ensures r.Some? ==> |s| > |Prefix| && s[..|Prefix|] == Prefix
  {
    if |s| > |Prefix| && s[..|Prefix|] == Prefix && Radix.AllDigits(s[|Prefix|..], 36)
    then Some(Radix.ValueOf(s[|Prefix|..], 36))
    else None
  }

  /** Decoding the digits after the prefix gives back the timestamp. */
  lemma OrderNumberRoundTrip(timestamp: nat)
    ensures ParseOrderNumber(OrderNumber(timestamp)) == Some(timestamp)
  {
    var digits := Radix.ToRadix(timestamp, 36);
    var upper := Ascii.ToUpper(digits);
    Radix.UpperKeepsDigits(digits, 36);
    assert OrderNumber(timestamp)[|Prefix|..] == upper;
    Radix.ValueOfSameDigits(upper, digits, 36);
    Radix.ValueOfToRadix(timestamp, 36);
  }

  /** Distinct timestamps give distinct order numbers. */
  lemma OrderNumberInjective(a: nat, b: nat)
    requires OrderNumber(a) == OrderNumber(b)
    ensures a == b
  {
    OrderNumberRoundTrip(a);
    OrderNumberRoundTrip(b);
  }

  /** The page. Its order number is fixed when it mounts: re-rendering
      cannot change a const field. */
  class SuccessPage {
    const orderNumber: string

    /** Mounting: the lazy initializer reads the clock once, then the effect
        empties the cart without touching whether the panel is open. */
    constructor (now: nat, cart: Cart.CartEngine)
      modifies cart
      ensures orderNumber == OrderNumber(now)
      ensures cart.cartItems == [] && cart.isCartOpen == old(cart.isCartOpen)
    {
      orderNumber := OrderNumber(now);
      new;
      cart.ClearCart();
    }

    /** The effect running again after a re-render: the cart is empty
        afterwards, an already empty cart is left as it was, and the order
        number stays as it was. */
    method RerunClearEffect(cart: Cart.CartEngine)
      modifies cart
      ensures cart.cartItems == [] && cart.isCartOpen == old(cart.isCartOpen)
      ensures old(cart.cartItems) == [] ==> cart.cartItems == old(cart.cartItems)
    {
      cart.ClearCart();
    }
  }
}
