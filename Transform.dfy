/** The payload transformer (connector/transform.py): maps an enriched order to the
    everstox order schema, one independent fallback rule per field. Float parsing of
    decimal strings is a parameter (`parseDecimal`): Python's `float(s)`, or 0.0 when
    that raises. */
module Transform {
  import opened Common
  import opened Shopify

  datatype EverstoxAddress = EverstoxAddress(
    firstName: string,
    lastName: string,
    company: string,
    address1: string,
    address2: string,
    city: string,
    zip: string,
    countryCode: string,
    phone: string)

  /** What `_shop_money` returns: `{amount, currency}`. */
  datatype MoneyAmount = MoneyAmount(amount: Option<string>, currency: Option<string>)

  datatype ShippingPrice = ShippingPrice(currency: Option<string>, price: real, tax: real, net: real)

  datatype Totals = Totals(currency: Option<string>, total: real, tax: real)

  datatype Product = Product(sku: string)

  datatype OrderItem = OrderItem(quantity: int, product: Product)

  /** The eleven keys of a transformed order, every one always present. */
  datatype EverstoxOrder = EverstoxOrder(
    shopInstanceId: string,
    orderNumber: Option<string>,
    orderDate: Option<string>,
    financialStatus: Option<string>,
    orderPriority: Option<int>,
    customerEmail: string,
    shippingAddress: Option<EverstoxAddress>,
    billingAddress: Option<EverstoxAddress>,
    shippingPrice: Option<ShippingPrice>,
    totals: Option<Totals>,
    orderItems: seq<OrderItem>)

  /** `_to_float`: `float(None)` raises, so an absent amount is 0.0. */
  function ToFloat(parseDecimal: string -> real, value: Option<string>): real
  {
    match value
    case None => 0.0
    case Some(s) => parseDecimal(s)
  }

  /** `order.get("order_priority")`, where `None` also stands for a value that is not an int. */
  function OrderPriority(o: Order): Option<int>
  {
    match o.orderPriority
    case Some(Some(p)) => Some(p)
    case _ => None
  }

  /** `max(1, min(p, 99))` for an int priority, else None. */
  function ClampPriority(p: Option<int>): (r: Option<int>)
    ensures r.Some? <==> p.Some?
    ensures r.Some? ==> 1 <= r.value <= 99
    ensures p.Some? && 1 <= p.value <= 99 ==> r == p
    ensures p.Some? && p.value < 1 ==> r == Some(1)
    ensures p.Some? && p.value > 99 ==> r == Some(99)
  {
    match p
    case None => None
    case Some(v) =>
      var capped := if v < 99 then v else 99;
      Some(if 1 < capped then capped else 1)
  }

  /** `_customer_email`: never empty. */
  function CustomerEmail(o: Order): (email: string)
    ensures email != ""
    ensures o.customer.Some? && Truthy(o.customer.value.email) ==> email == o.customer.value.email.value
    ensures !(o.customer.Some? && Truthy(o.customer.value.email)) ==> email == "UNKNOWN_EMAIL"
  {
    var email := if o.customer.Some? then o.customer.value.email else None;
    OrStr(email, "UNKNOWN_EMAIL")
  }

  /** An output field that is the source value when that is truthy, and "" otherwise. */
  predicate FallsBackToBlank(out: string, src: Option<string>)
  {
    (Truthy(src) && out == src.value) || (!Truthy(src) && out == "")
  }

  /** `not addr`: the address is missing, null or the empty dict. */
  predicate NoAddress(addr: Option<Address>)
  {
    addr.None? || addr.value.EmptyAddress?
  }

  /** `_map_address`: None for no address, otherwise all nine fields, each falling back
      to ""; the country code prefers `countryCodeV2` over `countryCode`. */
  function MapAddress(addr: Option<Address>): (r: Option<EverstoxAddress>)
    ensures r.None? <==> NoAddress(addr)
    ensures r.Some? ==>
              var a, e := addr.value, r.value;
              && a.Address?
              && FallsBackToBlank(e.firstName, a.firstName)
              && FallsBackToBlank(e.lastName, a.lastName)
              && FallsBackToBlank(e.company, a.company)
              && FallsBackToBlank(e.address1, a.address1)
              && FallsBackToBlank(e.address2, a.address2)
              && FallsBackToBlank(e.city, a.city)
              && FallsBackToBlank(e.zip, a.zip)
              && FallsBackToBlank(e.phone, a.phone)
              && (Truthy(a.countryCodeV2) ==> e.countryCode == a.countryCodeV2.value)
              && (!Truthy(a.countryCodeV2) ==> FallsBackToBlank(e.countryCode, a.countryCode))
  {
    match addr
    case None => None
    case Some(EmptyAddress) => None
    case Some(a) =>
      Some(EverstoxAddress(
        OrStr(a.firstName, ""),
        OrStr(a.lastName, ""),
        OrStr(a.company, ""),
        OrStr(a.address1, ""),
        OrStr(a.address2, ""),
        OrStr(a.city, ""),
        OrStr(a.zip, ""),
        OrStr(a.countryCodeV2, OrStr(a.countryCode, "")),
        OrStr(a.phone, "")))
  }

  /** The Shopify address that carries an everstox address's fields verbatim. */
  function AddressOf(e: EverstoxAddress): Address
  {
    Address(Some(e.firstName), Some(e.lastName), Some(e.company), Some(e.address1), Some(e.address2),
            Some(e.city), Some(e.zip), Some(e.countryCode), None, Some(e.phone))
  }

  /** Mapping loses nothing of an address that is already in everstox form. */
  lemma MapAddressRoundTrip(e: EverstoxAddress)
    ensures MapAddress(Some(AddressOf(e))) == Some(e)
  {
  }

  /** `_shop_money`: None for no money set, or when neither amount nor currency is there;
      otherwise both copied from `shopMoney`. */
  function ShopMoney(moneySet: Option<MoneySet>): (r: Option<MoneyAmount>)
    ensures r.None? <==>
              || moneySet.None?
              || moneySet.value.shopMoney.None?
              || (moneySet.value.shopMoney.value.amount.None? && moneySet.value.shopMoney.value.currencyCode.None?)
    ensures r.Some? ==>
              && r.value.amount == moneySet.value.shopMoney.value.amount
              && r.value.currency == moneySet.value.shopMoney.value.currencyCode
              && (r.value.amount.Some? || r.value.currency.Some?)
  {
    match moneySet
    case None => None
    case Some(ms) =>
      var amount := if ms.shopMoney.Some? then ms.shopMoney.value.amount else None;
      var currency := if ms.shopMoney.Some? then ms.shopMoney.value.currencyCode else None;
      if amount.None? && currency.None? then None else Some(MoneyAmount(amount, currency))
  }

  function VariantSku(item: LineItem): Option<string>
  {
    if item.variant.Some? then item.variant.value.sku else None
  }

  /** `item.sku or variant.sku or "UNKNOWN_SKU"`: never empty. */
  function Sku(item: LineItem): (sku: string)
    ensures sku != ""
    ensures Truthy(item.sku) ==> sku == item.sku.value
    ensures !Truthy(item.sku) && Truthy(VariantSku(item)) ==> sku == VariantSku(item).value
    ensures !Truthy(item.sku) && !Truthy(VariantSku(item)) ==> sku == "UNKNOWN_SKU"
  {
    OrStr(item.sku, OrStr(VariantSku(item), "UNKNOWN_SKU"))
  }

  /** One order item for a line item whose `remaining_qty` is a positive int. */
  function PickOrderItem(item: LineItem): Option<OrderItem>
  {
    match item.remainingQty
    case Some(q) => if q > 0 then Some(OrderItem(q, Product(Sku(item)))) else None
    case None => None
  }

  /** `order.get("remaining_line_items", [])` */
  function RemainingOf(o: Order): seq<LineItem>
  {
    if o.remainingLineItems.Some? then o.remainingLineItems.value else []
  }

  function OrderItems(items: seq<LineItem>): seq<OrderItem>
  {
    FilterMap(items, PickOrderItem)
  }

  /** The emitted items are, in order, exactly the line items whose `remaining_qty` is a
      positive int, each with that quantity and its fallback SKU. */
  lemma {:induction false} OrderItemsExact(items: seq<LineItem>)
    ensures var out := OrderItems(items);
            var idx := KeptIndices(items, PickOrderItem);
            && |out| == |idx|
            && (forall k :: 0 <= k < |idx| ==>
                  && items[idx[k]].remainingQty.Some? && items[idx[k]].remainingQty.value > 0
                  && out[k] == OrderItem(items[idx[k]].remainingQty.value, Product(Sku(items[idx[k]]))))
            && (forall k, l :: 0 <= k < l < |idx| ==> idx[k] < idx[l])
            && (forall j :: 0 <= j < |items| ==>
                  (j in idx <==> items[j].remainingQty.Some? && items[j].remainingQty.value > 0))
  {
    FilterMapAt(items, PickOrderItem);
  }

  /** The item loop of `transform_order`, with its `continue` past unusable quantities. */
  method CollectOrderItems(lineItems: seq<LineItem>) returns (items: seq<OrderItem>)
    ensures items == OrderItems(lineItems)
    ensures forall k :: 0 <= k < |items| ==> items[k].quantity > 0
  {
    items := [];
    for i := 0 to |lineItems|
      invariant items == OrderItems(lineItems[..i])
      invariant forall k :: 0 <= k < |items| ==> items[k].quantity > 0
    {
      var item := lineItems[i];
      assert lineItems[..i + 1][..i] == lineItems[..i];
      var sku := Sku(item);
      var qty := item.remainingQty;
      if qty.None? || qty.value <= 0 {
        continue;
      }
      items := items + [OrderItem(qty.value, Product(sku))];
    }
    assert lineItems[..|lineItems|] == lineItems;
  }

  function ShippingPriceOf(parseDecimal: string -> real, money: Option<MoneyAmount>): Option<ShippingPrice>
  {
    if money.Some? then Some(ShippingPrice(money.value.currency, ToFloat(parseDecimal, money.value.amount), 0.0, 0.0))
    else None
  }

  function TotalsOf(parseDecimal: string -> real, total: Option<MoneyAmount>, tax: Option<MoneyAmount>): Option<Totals>
  {
    if total.Some? then
      Some(Totals(total.value.currency, ToFloat(parseDecimal, total.value.amount),
                  if tax.Some? then ToFloat(parseDecimal, tax.value.amount) else 0.0))
    else None
  }

  /** The transformed order, as `transform_order` builds it. */
  function Transformed(o: Order, shopInstanceId: string, parseDecimal: string -> real): (r: EverstoxOrder)
    ensures r.shopInstanceId == shopInstanceId
    ensures r.orderNumber == o.name && r.orderDate == o.createdAt
    ensures r.financialStatus == o.displayFinancialStatus
    ensures r.orderPriority.Some? <==> OrderPriority(o).Some?
    ensures r.orderPriority.Some? ==> 1 <= r.orderPriority.value <= 99
    ensures r.customerEmail != ""
    ensures r.shippingAddress.None? <==> NoAddress(o.shippingAddress)
    ensures r.billingAddress.None? <==> NoAddress(o.billingAddress)
    ensures r.shippingPrice.None? <==> ShopMoney(o.totalShippingPriceSet).None?
    ensures r.shippingPrice.Some? ==>
              && r.shippingPrice.value.tax == 0.0 && r.shippingPrice.value.net == 0.0
              && r.shippingPrice.value.currency == ShopMoney(o.totalShippingPriceSet).value.currency
    ensures r.totals.None? <==> ShopMoney(o.totalPriceSet).None?
    ensures r.totals.Some? ==> r.totals.value.currency == ShopMoney(o.totalPriceSet).value.currency
    ensures r.totals.Some? && ShopMoney(o.totalTaxSet).None? ==> r.totals.value.tax == 0.0
    ensures |r.orderItems| <= |RemainingOf(o)|
    ensures forall k :: 0 <= k < |r.orderItems| ==>
              r.orderItems[k].quantity > 0 && r.orderItems[k].product.sku != ""
  {
    OrderItemsExact(RemainingOf(o));
    EverstoxOrder(
      shopInstanceId,
      o.name,
      o.createdAt,
      o.displayFinancialStatus,
      ClampPriority(OrderPriority(o)),
      CustomerEmail(o),
      MapAddress(o.shippingAddress),
      MapAddress(o.billingAddress),
      ShippingPriceOf(parseDecimal, ShopMoney(o.totalShippingPriceSet)),
      TotalsOf(parseDecimal, ShopMoney(o.totalPriceSet), ShopMoney(o.totalTaxSet)),
      OrderItems(RemainingOf(o)))
  }

  /** `transform_order` */
  method TransformOrder(o: Order, shopInstanceId: string, parseDecimal: string -> real) returns (r: EverstoxOrder)
    ensures r == Transformed(o, shopInstanceId, parseDecimal)
  {
    var shippingMoney := ShopMoney(o.totalShippingPriceSet);
    var taxMoney := ShopMoney(o.totalTaxSet);
    var totalMoney := ShopMoney(o.totalPriceSet);

    var priority := OrderPriority(o);
    if priority.Some? {
      var p := priority.value;
      priority := Some(if 1 < (if p < 99 then p else 99) then (if p < 99 then p else 99) else 1);
    } else {
      priority := None;
    }

    var shippingAddress := MapAddress(o.shippingAddress);
    var billingAddress := MapAddress(o.billingAddress);

    var items := CollectOrderItems(RemainingOf(o));

    var shippingPrice: Option<ShippingPrice> := None;
    if shippingMoney.Some? {
      shippingPrice := Some(ShippingPrice(shippingMoney.value.currency,
                                          ToFloat(parseDecimal, shippingMoney.value.amount), 0.0, 0.0));
    }

    var totals: Option<Totals> := None;
    if totalMoney.Some? {
      totals := Some(Totals(totalMoney.value.currency,
                            ToFloat(parseDecimal, totalMoney.value.amount),
                            if taxMoney.Some? then ToFloat(parseDecimal, taxMoney.value.amount) else 0.0));
    }

    r := EverstoxOrder(shopInstanceId, o.name, o.createdAt, o.displayFinancialStatus, priority,
                       CustomerEmail(o), shippingAddress, billingAddress, shippingPrice, totals, items);
  }

  /** `to_everstox_payload`: one transformed order per input order, in the same order,
      all for the given shop instance. */
  function ToEverstoxPayload(orders: seq<Order>, shopInstanceId: string, parseDecimal: string -> real)
    : (payload: seq<EverstoxOrder>)
    ensures |payload| == |orders|
    ensures forall i :: 0 <= i < |orders| ==> payload[i] == Transformed(orders[i], shopInstanceId, parseDecimal)
    ensures forall i :: 0 <= i < |payload| ==>
              payload[i].shopInstanceId == shopInstanceId && payload[i].orderNumber == orders[i].name
  {
    seq(|orders|, i requires 0 <= i < |orders| => Transformed(orders[i], shopInstanceId, parseDecimal))
  }
}
