/** The checkout page: four ordered steps walked one at a time with Back and
    Continue, the flat form the steps fill in, the shipping-method list, the
    masked card number on the review step, and the submit guard. */
module Checkout {
  import Radix
  import Cart

  datatype Step = Information | Shipping | Payment | Review

  /** The steps in display order. */
  const Steps: seq<Step> := [Information, Shipping, Payment, Review]

  /** steps.findIndex((s) => s.id === currentStep). */
  function StepIndex(s: Step): (i: nat)
    ensures i < |Steps| && Steps[i] == s
    ensures forall j :: 0 <= j < |Steps| && Steps[j] == s ==> j == i
  {
    match s
    case Information => 0
    case Shipping => 1
    case Payment => 2
    case Review => 3
  }

  /** The step nextStep moves to: the following one, or the same at the last step. */
  function Advance(s: Step): (r: Step)
    ensures StepIndex(s) < |Steps| - 1 ==> StepIndex(r) == StepIndex(s) + 1
    ensures s == Review ==> r == Review
  {
    var i := StepIndex(s);
    if i < |Steps| - 1 then Steps[i + 1] else s
  }

  /** The step prevStep moves to: the preceding one, or the same at the first step. */
  function Retreat(s: Step): (r: Step)
    ensures StepIndex(s) > 0 ==> StepIndex(r) == StepIndex(s) - 1
    ensures s == Information ==> r == Information
  {
    var i := StepIndex(s);
    if i > 0 then Steps[i - 1] else s
  }

  /** Back undoes Continue everywhere except at Review, and Continue undoes
      Back everywhere except at Information. */
  lemma AdvanceRetreatInverse(s: Step)
    ensures s != Review ==> Retreat(Advance(s)) == s
    ensures s != Information ==> Advance(Retreat(s)) == s
  {
  }

  /** n presses of Continue. */
  function AdvanceTimes(s: Step, n: nat): Step
    decreases n
  {
    if n == 0 then s else AdvanceTimes(Advance(s), n - 1)
  }

  /** From any step, n presses of Continue reach index min(index + n, 3). */
  lemma {:induction false} AdvanceTimesIndex(s: Step, n: nat)
    ensures StepIndex(AdvanceTimes(s, n)) == if StepIndex(s) + n < |Steps| then StepIndex(s) + n else |Steps| - 1
    decreases n
  {
    if n > 0 {
      AdvanceTimesIndex(Advance(s), n - 1);
    }
  }

  /** From Information three presses reach Review, and any further ones stay there. */
  lemma ReachReview(n: nat)
    requires n >= 3
    ensures AdvanceTimes(Information, n) == Review
    ensures AdvanceTimes(Information, 2) != Review
  {
    AdvanceTimesIndex(Information, n);
    AdvanceTimesIndex(Information, 2);
  }

  // ---- progress indicator ----

  function CountTrue(bs: seq<bool>): (n: nat)
    ensures n <= |bs|
  {
    if bs == [] then 0 else (if bs[0] then 1 else 0) + CountTrue(bs[1..])
  }

  /** isActive for each step of the indicator. */
  function ActiveFlags(current: Step): (bs: seq<bool>)
    ensures |bs| == |Steps|
    ensures forall i :: 0 <= i < |Steps| ==> (bs[i] <==> i == StepIndex(current))
  {
    seq(|Steps|, i requires 0 <= i < |Steps| => Steps[i] == current)
  }

  /** isCompleted for each step of the indicator. */
  function CompletedFlags(current: Step): (bs: seq<bool>)
    ensures |bs| == |Steps|
    ensures forall i :: 0 <= i < |Steps| ==> (bs[i] <==> StepIndex(Steps[i]) < StepIndex(current))
    ensures forall i, j :: 0 <= i <= j < |Steps| && bs[j] ==> bs[i]
    ensures !bs[StepIndex(current)]
  {
    seq(|Steps|, i requires 0 <= i < |Steps| => i < StepIndex(current))
  }

  /** Exactly one step is active, the completed steps are the ones before it
      and number currentStepIndex, and no step is both. */
  lemma ProgressIndicator(current: Step)
    ensures CountTrue(ActiveFlags(current)) == 1
    ensures CountTrue(CompletedFlags(current)) == StepIndex(current)
    ensures forall i :: 0 <= i < |Steps| ==> !(ActiveFlags(current)[i] && CompletedFlags(current)[i])
  {
    CountTrueOfFour(ActiveFlags(current));
    CountTrueOfFour(CompletedFlags(current));
  }

  lemma CountTrueOfFour(bs: seq<bool>)
    requires |bs| == 4
    ensures CountTrue(bs) == (if bs[0] then 1 else 0) + (if bs[1] then 1 else 0) + (if bs[2] then 1 else 0) + (if bs[3] then 1 else 0)
  {
    var t1 := bs[1..];
    var t2 := t1[1..];
    var t3 := t2[1..];
    assert t3[1..] == [];
    assert CountTrue(t3) == (if bs[3] then 1 else 0);
    assert CountTrue(t2) == (if bs[2] then 1 else 0) + CountTrue(t3);
    assert CountTrue(t1) == (if bs[1] then 1 else 0) + CountTrue(t2);
  }

  // ---- shipping methods ----

  datatype ShippingOption = ShippingOption(id: string, title: string, time: string, price: int)

  /** The Standard price offered on the shipping step. */
  function StandardShipping(subtotal: int, threshold: int): (fee: int)
    ensures fee == 0 || fee == 15
    ensures fee == 0 <==> subtotal >= threshold
  {
    if subtotal >= threshold then 0 else 15
  }

  /** The shipping-method list shown on the shipping step. */
  function ShippingOptions(subtotal: int, threshold: int): (r: seq<ShippingOption>)
    ensures |r| == 3
    ensures r[0].id == "standard" && r[0].price == StandardShipping(subtotal, threshold)
    ensures r[1].id == "express" && r[1].price == 25
    ensures r[2].id == "overnight" && r[2].price == 45
  {
    [ ShippingOption("standard", "Standard Shipping", "5-7 business days", StandardShipping(subtotal, threshold)),
      ShippingOption("express", "Express Shipping", "2-3 business days", 25),
      ShippingOption("overnight", "Overnight Shipping", "Next business day", 45) ]
  }

  /** Which shipping rows show as checked for the selected method id. */
  function CheckedRows(options: seq<ShippingOption>, selected: string): (checked: seq<bool>)
    ensures |checked| == |options|
    ensures forall i :: 0 <= i < |options| ==> (checked[i] <==> options[i].id == selected)
  {
    seq(|options|, i requires 0 <= i < |options| => options[i].id == selected)
  }

  /** Choosing the method of row i checks that row and no other; the initial
      choice checks the Standard row. */
  lemma ChoosingAMethodChecksOnlyIt(subtotal: int, threshold: int, i: nat)
    requires i < 3
    ensures var options := ShippingOptions(subtotal, threshold);
      var checked := CheckedRows(options, options[i].id);
      checked[i] && CountTrue(checked) == 1
    ensures CheckedRows(ShippingOptions(subtotal, threshold), InitialForm()["shippingMethod"]) == [true, false, false]
  {
    var options := ShippingOptions(subtotal, threshold);
    var checked := CheckedRows(options, options[i].id);
    CountTrueOfThree(checked);
  }

  lemma CountTrueOfThree(bs: seq<bool>)
    requires |bs| == 3
    ensures CountTrue(bs) == (if bs[0] then 1 else 0) + (if bs[1] then 1 else 0) + (if bs[2] then 1 else 0)
  {
    var t1 := bs[1..];
    var t2 := t1[1..];
    assert t2[1..] == [];
    assert CountTrue(t2) == (if bs[2] then 1 else 0);
    assert CountTrue(t1) == (if bs[1] then 1 else 0) + CountTrue(t2);
  }

  /** A price as the shipping rows and the order summary print it. */
  function PriceLabel(price: int): (text: string)
    ensures text == "FREE" <==> price == 0
    ensures price != 0 ==> text == "$" + Radix.IntToString(price)
  {
    if price == 0 then "FREE"
    else
      var text := "$" + Radix.IntToString(price);
      assert text[0] != "FREE"[0];
      text
  }

  // ---- card mask ----

  /** String.prototype.slice(-4). */
  function LastFour(s: string): (r: string)
    ensures |r| == if |s| < 4 then |s| else 4
    ensures r == s[|s| - |r|..]
  {
    if |s| <= 4 then s else s[|s| - 4..]
  }

  /** The review step's card line: the last four characters of the card
      number, or "****" when none were entered. */
  function CardMask(cardNumber: string): (r: string)
    ensures cardNumber == [] ==> r == "****"
    ensures cardNumber != [] ==> 1 <= |r| <= 4 && |r| <= |cardNumber| && r == cardNumber[|cardNumber| - |r|..]
    ensures cardNumber != [] ==> |r| == if |cardNumber| < 4 then |cardNumber| else 4
  {
    var tail := LastFour(cardNumber);
    if tail == [] then "****" else tail
  }

  // ---- order summary ----

  /** The order summary column: one price per line, then the cart's
      subtotal, shipping and total. */
  datatype OrderSummary = OrderSummary(linePrices: seq<int>, subtotal: int, shippingText: string, total: int)

  /** The summary for the cart. `shipping` and `total` are the cart's values
      of those names; no form field, the chosen shipping method included, is
      an input. */
  function Summary(cartItems: seq<Cart.CartItem>, shipping: int, total: int): (s: OrderSummary)
    ensures |s.linePrices| == |cartItems|
    ensures forall i :: 0 <= i < |cartItems| ==> s.linePrices[i] == cartItems[i].product.price * cartItems[i].quantity
    ensures s.subtotal == Cart.Subtotal(cartItems) && s.total == total
    ensures s.shippingText == "FREE" <==> shipping == 0
  {
    OrderSummary(seq(|cartItems|, i requires 0 <= i < |cartItems| => Cart.LinePrice(cartItems[i])),
                 Cart.Subtotal(cartItems), PriceLabel(shipping), total)
  }

  // ---- rendering guard ----

  datatype PrimaryButton = Continue | PlaceOrder(disabled: bool)

  datatype CheckoutView =
    | EmptyCartNotice
    | StepFlow(step: Step, activeStep: seq<bool>, completedStep: seq<bool>, backDisabled: bool,
               primary: PrimaryButton, summary: OrderSummary)

  /** What the page renders for the given cart and page state. */
  function Render(cartItems: seq<Cart.CartItem>, currentStep: Step, isProcessing: bool,
                  shipping: int, total: int): (v: CheckoutView)
    ensures v.EmptyCartNotice? <==> |cartItems| == 0
    ensures v.StepFlow? ==> v.step == currentStep
    ensures v.StepFlow? ==> (v.backDisabled <==> currentStep == Information)
    ensures v.StepFlow? ==> (v.primary.PlaceOrder? <==> currentStep == Review)
    ensures v.StepFlow? && v.primary.PlaceOrder? ==> (v.primary.disabled <==> isProcessing)
    ensures v.StepFlow? ==> v.summary == Summary(cartItems, shipping, total)
  {
    if |cartItems| == 0 then EmptyCartNotice
    else
      StepFlow(currentStep, ActiveFlags(currentStep), CompletedFlags(currentStep),
               StepIndex(currentStep) == 0,
               if currentStep == Review then PlaceOrder(isProcessing) else Continue,
               Summary(cartItems, shipping, total))
  }

  /** The form fields and their initial values: every field empty except
      the shipping method, which starts on Standard. */
  function InitialForm(): (form: map<string, string>)
    ensures "shippingMethod" in form && form["shippingMethod"] == "standard"
    ensures forall k :: k in form && k != "shippingMethod" ==> form[k] == ""
    ensures "email" in form && "cardNumber" in form && "cardName" in form
  {
    map["email" := "", "firstName" := "", "lastName" := "", "address" := "",
        "apartment" := "", "city" := "", "state" := "", "zip" := "", "phone" := "",
        "shippingMethod" := "standard",
        "cardNumber" := "", "cardExpiry" := "", "cardCvc" := "", "cardName" := ""]
  }

  /** The page's state. */
  class CheckoutPage {
    var currentStep: Step
    var isProcessing: bool
    var formData: map<string, string>

    constructor ()
      ensures currentStep == Information && !isProcessing && formData == InitialForm()
    {
      currentStep := Information;
      isProcessing := false;
      formData := InitialForm();
    }

    function CurrentStepIndex(): nat
      reads this
    {
      StepIndex(currentStep)
    }

    method NextStep()
      modifies this
      ensures currentStep == Advance(old(currentStep))
      ensures CurrentStepIndex() == if old(CurrentStepIndex()) < 3 then old(CurrentStepIndex()) + 1 else 3
      ensures isProcessing == old(isProcessing) && formData == old(formData)
    {
      var currentIndex := StepIndex(currentStep);
      if currentIndex < |Steps| - 1 {
        currentStep := Steps[currentIndex + 1];
      }
    }

    method PrevStep()
      modifies this
      ensures currentStep == Retreat(old(currentStep))
      ensures CurrentStepIndex() == if old(CurrentStepIndex()) > 0 then old(CurrentStepIndex()) - 1 else 0
      ensures isProcessing == old(isProcessing) && formData == old(formData)
    {
      var currentIndex := StepIndex(currentStep);
      if currentIndex > 0 {
        currentStep := Steps[currentIndex - 1];
      }
    }

    /** An input or select named `name` changed to `value`. */
    method HandleInputChange(name: string, value: string)
      modifies this
      ensures name in formData && formData[name] == value
      ensures forall k :: k != name ==> (k in formData <==> k in old(formData))
      ensures forall k :: k != name && k in old(formData) ==> formData[k] == old(formData)[k]
      ensures currentStep == old(currentStep) && isProcessing == old(isProcessing)
    {
      formData := formData[name := value];
    }

    /** Place Order: marks the page as processing (the delay and the
        redirect to the success page follow outside the model). */
    method HandleSubmitOrder()
      modifies this
      ensures isProcessing
      ensures currentStep == old(currentStep) && formData == old(formData)
    {
      isProcessing := true;
    }
  }
}
