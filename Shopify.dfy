/** The order records as the Shopify GraphQL orders query returns them
    (connector/shopify_queries.py), plus the keys the filter stage adds to its copies.
    Every field is optional: a missing key and a JSON null are both `None`. */
module Shopify {
  import opened Common

  datatype Variant = Variant(sku: Option<string>)

  /** One node of `lineItems`. `fulfilledQuantity` is read by the filter although the
      query does not request it; `remainingQty` is the key the filter adds to its copy
      (`None` also stands for a value that is not an int). */
  datatype LineItem = LineItem(
    title: Option<string>,
    quantity: Option<int>,
    sku: Option<string>,
    variant: Option<Variant>,
    fulfilledQuantity: Option<int>,
    fulfillmentStatus: Option<string>,
    remainingQty: Option<int>)

  datatype LineItemConnection = LineItemConnection(nodes: Option<seq<LineItem>>)

  datatype Money = Money(amount: Option<string>, currencyCode: Option<string>)

  datatype MoneySet = MoneySet(shopMoney: Option<Money>)

  /** A mailing address. `EmptyAddress` is the empty dict `{}`, which Python treats as
      false; an `Address` record has at least one key, and a field that is `None` is a
      key that is missing or null. `countryCode` is the legacy name the transformer
      still reads. */
  datatype Address = EmptyAddress | Address(
    firstName: Option<string>,
    lastName: Option<string>,
    company: Option<string>,
    address1: Option<string>,
    address2: Option<string>,
    city: Option<string>,
    zip: Option<string>,
    countryCodeV2: Option<string>,
    countryCode: Option<string>,
    phone: Option<string>)

  datatype Customer = Customer(email: Option<string>)

  /** An order node. The last three fields are the keys the filter stage adds:
      `orderPriority` is `Some(p)` once the key is set, where `p` may itself be `None`
      (the priority parser found nothing); `excludeReason` and `remainingLineItems`
      are set on excluded and included copies respectively. */
  datatype Order = Order(
    id: Option<string>,
    name: Option<string>,
    createdAt: Option<string>,
    displayFinancialStatus: Option<string>,
    displayFulfillmentStatus: Option<string>,
    tags: Option<seq<string>>,
    customer: Option<Customer>,
    shippingAddress: Option<Address>,
    billingAddress: Option<Address>,
    totalPriceSet: Option<MoneySet>,
    totalTaxSet: Option<MoneySet>,
    totalShippingPriceSet: Option<MoneySet>,
    lineItems: Option<LineItemConnection>,
    orderPriority: Option<Option<int>>,
    excludeReason: Option<string>,
    remainingLineItems: Option<seq<LineItem>>)

  /** An order as fetched: none of the derived keys is present yet. */
  predicate Fetched(o: Order)
  {
    o.orderPriority.None? && o.excludeReason.None? && o.remainingLineItems.None?
  }

  /** `order.get("tags") or []` */
  function Tags(o: Order): seq<string>
  {
    if o.tags.Some? then o.tags.value else []
  }

  /** `(order.get("lineItems") or {}).get("nodes", [])` */
  function LineItems(o: Order): seq<LineItem>
  {
    match o.lineItems
    case None => []
    case Some(conn) => if conn.nodes.Some? then conn.nodes.value else []
  }
}
