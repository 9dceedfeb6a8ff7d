/** The checkout page's rules: the displayed total, the shipping-address
    check, the order payload sent when the order is placed, and the
    three-step flow (shipping address, review, payment). */
module Checkout {
  import opened Http
  import CartModel
  import CartEngine

  /** A cart line's product as the cart endpoint returns it populated; None
      stands for a product that no longer exists. */
  datatype ProductView = ProductView(id: string, price: int, name: string, imageUrl: string)

  datatype ViewItem = ViewItem(product: Option<ProductView>, quantity: int)

  /** The fetched cart; `items` is None when the response has none. */
  datatype CartView = CartView(items: Option<seq<ViewItem>>)

  // ---------------------------------------------------------------------
  // Total

  function PriceOf(item: ViewItem): int {
    if item.product.Some? then item.product.value.price else 0
  }

  /** The `reduce` over the lines: price times quantity, a missing product
      counting as price 0. */
  function ItemsTotal(items: seq<ViewItem>): int
    decreases |items|
  {
    if items == [] then 0
    else ItemsTotal(items[..|items| - 1]) + PriceOf(items[|items| - 1]) * items[|items| - 1].quantity
  }

  /** calculateTotal: 0 without a cart or without items. */
  function CalculateTotal(cart: Option<CartView>): (r: int)
    ensures cart.None? || cart.value.items.None? ==> r == 0
    ensures cart == Some(CartView(Some([]))) ==> r == 0
  {
    if cart.None? || cart.value.items.None? then 0 else ItemsTotal(cart.value.items.value)
  }

  lemma {:induction false} ItemsTotalAppend(a: seq<ViewItem>, b: seq<ViewItem>)
    ensures ItemsTotal(a + b) == ItemsTotal(a) + ItemsTotal(b)
    decreases |b|
  {
    if b == [] {
      assert a + b == a;
    } else {
      assert (a + b)[..|a + b| - 1] == a + b[..|b| - 1];
      ItemsTotalAppend(a, b[..|b| - 1]);
    }
  }

  /** One line contributes its price times its quantity. */
  lemma ItemsTotalSingle(it: ViewItem)
    ensures ItemsTotal([it]) == PriceOf(it) * it.quantity
  {
    assert [it][..0] == [];
  }

  /** A line whose product is gone adds nothing, wherever it sits. */
  lemma MissingProductAddsNothing(a: seq<ViewItem>, quantity: int, b: seq<ViewItem>)
    ensures ItemsTotal(a + [ViewItem(None, quantity)] + b) == ItemsTotal(a + b)
  {
    ItemsTotalAppend(a + [ViewItem(None, quantity)], b);
    ItemsTotalAppend(a, [ViewItem(None, quantity)]);
    ItemsTotalAppend(a, b);
    assert [ViewItem(None, quantity)][..0] == [];
  }

  /** The fetched view shows the stored lines in order, each populated with
      its catalog product. */
  predicate Mirrors(view: seq<ViewItem>, lines: seq<CartModel.CartItem>, catalog: CartEngine.Catalog) {
    && |view| == |lines|
    && forall i :: 0 <= i < |view| ==>
         && view[i].quantity == lines[i].quantity
         && lines[i].product in catalog
         && view[i].product.Some?
         && view[i].product.value.id == lines[i].product
         && view[i].product.value.price == catalog[lines[i].product].price
  }

  /** On a view of a stored cart whose products all exist, the page's total
      is the total the server derives. */
  lemma {:induction false} MirroredTotal(view: seq<ViewItem>, lines: seq<CartModel.CartItem>, catalog: CartEngine.Catalog)
    requires Mirrors(view, lines, catalog)
    ensures CartEngine.Resolves(lines, catalog)
    ensures CalculateTotal(Some(CartView(Some(view)))) == CartEngine.Total(lines, catalog)
    decreases |view|
  {
    if view != [] {
      var n := |view| - 1;
      assert Mirrors(view[..n], lines[..n], catalog);
      MirroredTotal(view[..n], lines[..n], catalog);
    }
  }

  // ---------------------------------------------------------------------
  // Shipping address

  datatype Address = Address(
    fullName: string,
    address: string,
    city: string,
    state: string,
    postalCode: string,
    country: string)

  /** The keys of the address state, in declaration order. */
  const AddressKeys: seq<string> := ["fullName", "address", "city", "state", "postalCode", "country"]

  const MsgFieldRequired: string := "This field is required"

  function FieldOf(a: Address, key: string): string {
    if key == "fullName" then a.fullName
    else if key == "address" then a.address
    else if key == "city" then a.city
    else if key == "state" then a.state
    else if key == "postalCode" then a.postalCode
    else if key == "country" then a.country
    else ""
  }

  predicate AllFilled(a: Address) {
    a.fullName != "" && a.address != "" && a.city != "" && a.state != "" && a.postalCode != "" && a.country != ""
  }

  /** The keys whose field is empty. */
  function MissingKeys(a: Address): set<string> {
    set k | k in AddressKeys && FieldOf(a, k) == ""
  }

  /** validateShippingAddress: one "required" error for exactly the empty
      fields, so no error at all iff all six are filled. */
  method ValidateShippingAddress(a: Address) returns (errors: map<string, string>)
    ensures errors.Keys == MissingKeys(a)
    ensures forall k :: k in errors ==> errors[k] == MsgFieldRequired
    ensures |errors| == 0 <==> AllFilled(a)
  {
    errors := map[];
    var i := 0;
    while i < |AddressKeys|
      invariant 0 <= i <= |AddressKeys|
      invariant errors.Keys == set k | k in AddressKeys[..i] && FieldOf(a, k) == ""
      invariant forall k :: k in errors ==> errors[k] == MsgFieldRequired
    {
      var key := AddressKeys[i];
      if FieldOf(a, key) == "" {
        errors := errors[key := MsgFieldRequired];
      }
      assert AddressKeys[..i + 1] == AddressKeys[..i] + [key];
      i := i + 1;
    }
    assert AddressKeys[..i] == AddressKeys;
    if AllFilled(a) {
      assert errors.Keys == {};
    } else {
      var k := if a.fullName == "" then AddressKeys[0]
        else if a.address == "" then AddressKeys[1]
        else if a.city == "" then AddressKeys[2]
        else if a.state == "" then AddressKeys[3]
        else if a.postalCode == "" then AddressKeys[4]
        else AddressKeys[5];
      assert k in errors.Keys;
      assert errors.Keys != {};
    }
  }

  // ---------------------------------------------------------------------
  // Order payload

  datatype PayloadItem = PayloadItem(product: string, quantity: int, price: int, name: string, image: string)

  datatype OrderPayload = OrderPayload(orderItems: seq<PayloadItem>, shippingAddress: Address, totalPrice: int)

  predicate AllPopulated(items: seq<ViewItem>) {
    forall i :: 0 <= i < |items| ==> items[i].product.Some?
  }

  function PayloadItems(items: seq<ViewItem>): seq<PayloadItem>
    requires AllPopulated(items)
  {
    seq(|items|, i requires 0 <= i < |items| =>
      var p := items[i].product.value;
      PayloadItem(p.id, items[i].quantity, p.price, p.name, p.imageUrl))
  }

  /** The body handlePlaceOrder sends: None when building it throws (no cart,
      no items, or a line without its product); otherwise one item per line
      copying the product's id, price, name and image with the line's
      quantity, the address as entered, and the page's total. */
  function BuildOrderPayload(cart: Option<CartView>, address: Address): (r: Option<OrderPayload>)
    ensures r.Some? <==> cart.Some? && cart.value.items.Some? && AllPopulated(cart.value.items.value)
    ensures r.Some? ==>
      var items := cart.value.items.value;
      && |r.value.orderItems| == |items|
      && (forall i :: 0 <= i < |items| ==>
            && r.value.orderItems[i].product == items[i].product.value.id
            && r.value.orderItems[i].quantity == items[i].quantity
            && r.value.orderItems[i].price == items[i].product.value.price
            && r.value.orderItems[i].name == items[i].product.value.name
            && r.value.orderItems[i].image == items[i].product.value.imageUrl)
      && r.value.shippingAddress == address
      && r.value.totalPrice == CalculateTotal(cart)
  {
    if cart.None? || cart.value.items.None? || !AllPopulated(cart.value.items.value) then None
    else Some(OrderPayload(PayloadItems(cart.value.items.value), address, CalculateTotal(cart)))
  }

  function PayloadTotal(items: seq<PayloadItem>): int
    decreases |items|
  {
    if items == [] then 0
    else PayloadTotal(items[..|items| - 1]) + items[|items| - 1].price * items[|items| - 1].quantity
  }

  /** The payload's total price is the sum over its own items, so the
      server receives a consistent order. */
  lemma {:induction false} PayloadTotalConsistent(items: seq<ViewItem>)
    requires AllPopulated(items)
    ensures PayloadTotal(PayloadItems(items)) == ItemsTotal(items)
    decreases |items|
  {
    if items != [] {
      var n := |items| - 1;
      assert PayloadItems(items)[..n] == PayloadItems(items[..n]);
      PayloadTotalConsistent(items[..n]);
    }
  }

  // ---------------------------------------------------------------------
  // Step flow

  const ShippingStep: int := 0
  const ReviewStep: int := 1
  const PaymentStep: int := 2

  class CheckoutFlow {
    var activeStep: int
    var errors: map<string, string>
    var address: Address
    var cart: Option<CartView>
    /** The id of the order the server created, once there is one. */
    var order: Option<string>

    ghost predicate Valid()
      reads this
    {
      ShippingStep <= activeStep <= PaymentStep
    }

    constructor (cart: Option<CartView>)
      ensures Valid() && activeStep == ShippingStep
      ensures errors == map[] && address == Address("", "", "", "", "", "")
      ensures this.cart == cart && order.None?
    {
      activeStep := ShippingStep;
      errors := map[];
      address := Address("", "", "", "", "", "");
      this.cart := cart;
      order := None;
    }

    /** handlePlaceOrder: sends the payload when it can be built and keeps
        the created order when the server answers with one (`response`);
        any failure is swallowed. */
    method PlaceOrder(response: Option<string>) returns (sent: Option<OrderPayload>)
      modifies this
      ensures sent == BuildOrderPayload(cart, address)
      ensures order == if sent.Some? && response.Some? then response else old(order)
      ensures activeStep == old(activeStep) && errors == old(errors)
      ensures address == old(address) && cart == old(cart)
    {
      sent := BuildOrderPayload(cart, address);
      if sent.Some? && response.Some? {
        order := response;
      }
    }

    /** handleNext, offered only before the payment step: on the shipping
        step an incomplete address records its errors and stays; on the
        review step the order is placed and the flow advances whatever the
        outcome. */
    method HandleNext(response: Option<string>) returns (sent: Option<OrderPayload>)
      requires Valid() && activeStep != PaymentStep
      modifies this
      ensures Valid()
      ensures address == old(address) && cart == old(cart)
      ensures old(activeStep) == ShippingStep && !AllFilled(address) ==>
                && activeStep == ShippingStep
                && errors.Keys == MissingKeys(address)
                && (forall k :: k in errors ==> errors[k] == MsgFieldRequired)
                && order == old(order) && sent.None?
      ensures old(activeStep) == ShippingStep && AllFilled(address) ==>
                activeStep == ReviewStep && errors == old(errors) && order == old(order) && sent.None?
      ensures old(activeStep) == ReviewStep ==>
                && activeStep == PaymentStep
                && errors == old(errors)
                && sent == BuildOrderPayload(cart, address)
                && order == (if sent.Some? && response.Some? then response else old(order))
    {
      sent := None;
      if activeStep == ShippingStep {
        var validationErrors := ValidateShippingAddress(address);
        if |validationErrors| > 0 {
          errors := validationErrors;
          return;
        }
      }
      if activeStep == ReviewStep {
        sent := PlaceOrder(response);
      }
      activeStep := activeStep + 1;
    }

    /** handleBack, offered only after the shipping step. */
    method HandleBack()
      requires Valid() && activeStep != ShippingStep
      modifies this
      ensures Valid() && activeStep == old(activeStep) - 1
      ensures errors == old(errors) && address == old(address) && cart == old(cart) && order == old(order)
    {
      activeStep := activeStep - 1;
    }
  }
}
