/** The checkout dialog as a state machine: three steps, the two forms, the
    shared error map, the events its buttons and inputs raise, and the
    order snapshot taken when the order is placed. */
module CheckoutWizard {
  import opened Text
  import opened Forms
  import opened Wrappers
  import opened CheckoutValidation
  import Cart
  import CardFormat

  datatype Step = ShippingStep | PaymentStep | ReviewStep

  /** The dialog's component state: `currentStep`, `shippingInfo`,
      `paymentInfo` and `errors`. */
  datatype Checkout = Checkout(
    step: Step,
    shipping: ShippingInfo,
    payment: PaymentInfo,
    errors: Errors)

  /** What the user can do in the dialog. `Edit` is an input's `onChange`
      with the text typed into it; the rest are the footer's buttons. */
  datatype Event =
    | Edit(field: Field, value: string)
    | ShippingNext
    | PaymentNext
    | BackToShipping
    | BackToPayment

  /** The payload `handlePlaceOrder` hands to `onOrderComplete`. */
  datatype OrderData = OrderData(
    orderId: string,
    items: seq<Cart.CartItem>,
    total: int,
    shippingInfo: ShippingInfo,
    paymentInfo: PaymentInfo,
    timestamp: string)

  /** A placed order and the cart left behind by `clearCart()`. */
  datatype Placed = Placed(order: OrderData, cart: Cart.CartState)

  const EmptyShipping: ShippingInfo := ShippingInfo("", "", "", "", "", "", "", "United States")

  const EmptyPayment: PaymentInfo := PaymentInfo("", "", "", "")

  const Initial: Checkout := Checkout(ShippingStep, EmptyShipping, EmptyPayment, map[])

  // ---------------------------------------------------------------------
  // The forms' inputs

  /** The inputs of the shipping form: the validated fields plus the
      country selector. */
  predicate IsShippingInput(f: Field) {
    f in ShippingFields || f == Country
  }

  predicate IsPaymentInput(f: Field) {
    f in PaymentFields
  }

  /** The text of one shipping input (`""` for a field the form lacks). */
  function ShippingValue(info: ShippingInfo, f: Field): string {
    match f
    case FirstName => info.firstName
    case LastName => info.lastName
    case Email => info.email
    case Address => info.address
    case City => info.city
    case State => info.state
    case ZipCode => info.zipCode
    case Country => info.country
    case _ => ""
  }

  function PaymentValue(info: PaymentInfo, f: Field): string {
    match f
    case CardNumber => info.cardNumber
    case ExpiryDate => info.expiryDate
    case Cvv => info.cvv
    case CardholderName => info.cardholderName
    case _ => ""
  }

  /** `setShippingInfo({ ...shippingInfo, [f]: value })`: the named input
      reads back `value` and every other input is unchanged. */
  function SetShippingValue(info: ShippingInfo, f: Field, value: string): (r: ShippingInfo)
    requires IsShippingInput(f)
    ensures ShippingValue(r, f) == value
    ensures forall g | g != f :: ShippingValue(r, g) == ShippingValue(info, g)
  {
    match f
    case FirstName => info.(firstName := value)
    case LastName => info.(lastName := value)
    case Email => info.(email := value)
    case Address => info.(address := value)
    case City => info.(city := value)
    case State => info.(state := value)
    case ZipCode => info.(zipCode := value)
    case Country => info.(country := value)
  }

  function SetPaymentValue(info: PaymentInfo, f: Field, value: string): (r: PaymentInfo)
    requires IsPaymentInput(f)
    ensures PaymentValue(r, f) == value
    ensures forall g | g != f :: PaymentValue(r, g) == PaymentValue(info, g)
  {
    match f
    case CardNumber => info.(cardNumber := value)
    case ExpiryDate => info.(expiryDate := value)
    case Cvv => info.(cvv := value)
    case CardholderName => info.(cardholderName := value)
  }

  /** The value the payment form stores for what was typed: the card
      number goes through the display formatter, the rest as typed. */
  function PaymentInput(f: Field, typed: string): string {
    if f == CardNumber then CardFormat.FormatCardNumber(typed) else typed
  }

  // ---------------------------------------------------------------------
  // Transitions

  /** One event. Only the current step's form and buttons are on screen,
      so an event the step does not offer leaves the state unchanged.
      Editing a field does not touch the error map here. */
  function Next(c: Checkout, e: Event): (r: Checkout)
    ensures r.step == c.step || (e.ShippingNext? || e.PaymentNext? || e.BackToShipping? || e.BackToPayment?)
  {
    match e
    case Edit(f, value) =>
      if c.step == ShippingStep && IsShippingInput(f) then
        c.(shipping := SetShippingValue(c.shipping, f, value))
      else if c.step == PaymentStep && IsPaymentInput(f) then
        c.(payment := SetPaymentValue(c.payment, f, PaymentInput(f, value)))
      else c
    case ShippingNext =>
      if c.step != ShippingStep then c
      else
        var errors := ValidateShippingInfo(c.shipping);
        if HasErrors(errors) then c.(errors := errors) else c.(step := PaymentStep)
    case PaymentNext =>
      if c.step != PaymentStep then c
      else
        var errors := ValidatePaymentInfo(c.payment);
        if HasErrors(errors) then c.(errors := errors) else c.(step := ReviewStep)
    case BackToShipping =>
      if c.step == PaymentStep then c.(step := ShippingStep) else c
    case BackToPayment =>
      if c.step == ReviewStep then c.(step := PaymentStep) else c
  }

  /** Events applied first to last. */
  function Run(c: Checkout, events: seq<Event>): Checkout
    decreases |events|
  {
    if |events| == 0 then c else Run(Next(c, events[0]), events[1..])
  }

  /** `handlePlaceOrder`, offered only on the review step: the order
      records the cart's items and total and both forms as they stand,
      and the cart is emptied. The id and timestamp come from the clock
      and are parameters here. */
  function PlaceOrder(c: Checkout, cart: Cart.CartState, orderId: string, timestamp: string): (r: Option<Placed>)
    ensures r.Some? <==> c.step == ReviewStep
    ensures r.Some? ==>
      && r.value.order.items == cart.items
      && r.value.order.total == cart.total
      && r.value.order.shippingInfo == c.shipping
      && r.value.order.paymentInfo == c.payment
      && r.value.order.orderId == orderId
      && r.value.order.timestamp == timestamp
      && r.value.cart.items == [] && r.value.cart.total == 0 && r.value.cart.itemCount == 0
  {
    if c.step != ReviewStep then None
    else
      var order := OrderData(orderId, cart.items, cart.total, c.shipping, c.payment, timestamp);
      Some(Placed(order, Cart.Reduce(cart, Cart.ClearCart)))
  }

  // ---------------------------------------------------------------------
  // Properties

  /** What every reachable dialog satisfies: past the shipping step the
      shipping form is valid, and on the review step the payment form is
      too. */
  ghost predicate Invariant(c: Checkout) {
    && (c.step != ShippingStep ==> ShippingInfoValid(c.shipping))
    && (c.step == ReviewStep ==> PaymentInfoValid(c.payment))
  }

  /** Continue from shipping moves on exactly when the shipping form is
      valid. If it is not, the step stays and the errors become the
      validator's; if it is, the errors are left as they were. */
  lemma ShippingNextGated(c: Checkout)
    requires c.step == ShippingStep
    ensures var r := Next(c, ShippingNext);
            && (r.step == PaymentStep <==> ShippingInfoValid(c.shipping))
            && (r.step != PaymentStep ==> r.step == ShippingStep && r.errors == ValidateShippingInfo(c.shipping))
            && (r.step == PaymentStep ==> r.errors == c.errors)
            && r.shipping == c.shipping && r.payment == c.payment
  {
    ShippingAcceptsExactlyValid(c.shipping);
  }

  lemma PaymentNextGated(c: Checkout)
    requires c.step == PaymentStep
    ensures var r := Next(c, PaymentNext);
            && (r.step == ReviewStep <==> PaymentInfoValid(c.payment))
            && (r.step != ReviewStep ==> r.step == PaymentStep && r.errors == ValidatePaymentInfo(c.payment))
            && (r.step == ReviewStep ==> r.errors == c.errors)
            && r.shipping == c.shipping && r.payment == c.payment
  {
    PaymentAcceptsExactlyValid(c.payment);
  }

  /** The back buttons always move one step back and keep both forms and
      the errors. */
  lemma BackIsUnconditional(c: Checkout)
    ensures c.step == PaymentStep ==> Next(c, BackToShipping) == c.(step := ShippingStep)
    ensures c.step == ReviewStep ==> Next(c, BackToPayment) == c.(step := PaymentStep)
  {
  }

  /** Typing into an input changes that input only: the other inputs, the
      other form, the step and the errors keep their values. */
  lemma EditChangesOneInput(c: Checkout, f: Field, typed: string)
    ensures var r := Next(c, Edit(f, typed));
            && r.step == c.step && r.errors == c.errors
            && (c.step == ShippingStep && IsShippingInput(f) ==>
                  && ShippingValue(r.shipping, f) == typed
                  && (forall g | g != f :: ShippingValue(r.shipping, g) == ShippingValue(c.shipping, g))
                  && r.payment == c.payment)
            && (c.step == PaymentStep && IsPaymentInput(f) ==>
                  && PaymentValue(r.payment, f) == PaymentInput(f, typed)
                  && (forall g | g != f :: PaymentValue(r.payment, g) == PaymentValue(c.payment, g))
                  && r.shipping == c.shipping)
            && (c.step == ReviewStep ==> r == c)
  {
  }

  lemma InitialInvariant()
    ensures Invariant(Initial)
  {
  }

  /** Every event preserves the invariant. */
  lemma NextPreservesInvariant(c: Checkout, e: Event)
    requires Invariant(c)
    ensures Invariant(Next(c, e))
  {
    match e
    case ShippingNext =>
      if c.step == ShippingStep {
        ShippingNextGated(c);
      }
    case PaymentNext =>
      if c.step == PaymentStep {
        PaymentNextGated(c);
      }
    case _ =>
  }

  lemma {:induction false} RunPreservesInvariant(c: Checkout, events: seq<Event>)
    requires Invariant(c)
    ensures Invariant(Run(c, events))
    decreases |events|
  {
    if |events| > 0 {
      NextPreservesInvariant(c, events[0]);
      RunPreservesInvariant(Next(c, events[0]), events[1..]);
    }
  }

  /** Whatever the user does after opening the dialog, an order can only
      be placed with a valid shipping form and a valid payment form, and
      it then carries exactly the cart it was placed from. */
  lemma OrdersAreValid(events: seq<Event>, cart: Cart.CartState, orderId: string, timestamp: string)
    ensures var c := Run(Initial, events);
            var r := PlaceOrder(c, cart, orderId, timestamp);
            r.Some? ==>
              && ShippingInfoValid(r.value.order.shippingInfo)
              && PaymentInfoValid(r.value.order.paymentInfo)
              && r.value.order.items == cart.items
              && r.value.cart == Cart.InitialState
  {
    InitialInvariant();
    RunPreservesInvariant(Initial, events);
  }

  /** With a cart whose derived fields are consistent, the order's total
      is the sum of its lines. */
  lemma OrderTotalIsSum(c: Checkout, cart: Cart.CartState, orderId: string, timestamp: string)
    requires Cart.TotalsConsistent(cart)
    requires c.step == ReviewStep
    ensures PlaceOrder(c, cart, orderId, timestamp).value.order.total
      == Cart.Subtotal(PlaceOrder(c, cart, orderId, timestamp).value.order.items)
  {
  }

  /** The error map only ever holds keys of the two forms' validated
      fields. */
  ghost predicate ErrorKeysKnown(c: Checkout) {
    c.errors.Keys <= ShippingFields + PaymentFields
  }

  lemma NextKeepsErrorKeysKnown(c: Checkout, e: Event)
    requires ErrorKeysKnown(c)
    ensures ErrorKeysKnown(Next(c, e))
  {
  }

  /** A successful Continue never resets the errors: continuing from a
      valid shipping form and coming back restores the dialog exactly,
      old messages included, even though every field is now valid. */
  lemma SuccessKeepsOldErrors(c: Checkout)
    requires c.step == ShippingStep && ShippingInfoValid(c.shipping)
    ensures Next(Next(c, ShippingNext), BackToShipping) == c
  {
    ShippingNextGated(c);
  }

  /** Continuing with an empty first name stays on the shipping step
      and reports it. */
  lemma FirstFailure(c: Checkout)
    requires c.step == ShippingStep && c.shipping.firstName == ""
    ensures Next(c, ShippingNext).step == ShippingStep
    ensures FirstName in Next(c, ShippingNext).errors
    ensures Next(c, ShippingNext).errors[FirstName] == "First name is required"
  {
    ShippingNextGated(c);
    assert ShippingFieldSpec(c.shipping, FirstName) == Some("First name is required");
  }
}
