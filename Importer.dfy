/** The import orchestration (connector/importer.py, `import_orders`): parse the tag
    lists, filter the fetched orders, transform the included ones, prepare the request,
    summarise, and keep a short sample of the excluded orders. The Shopify client is
    not part of this model: the fetched orders are an input sequence. */
module Importer {
  import opened Common
  import opened Shopify
  import opened Filter
  import opened Summary
  import opened TagLists
  import opened Transform
  import opened DryRun

  /** The settings `import_orders` reads (connector/config.py). */
  datatype Settings = Settings(
    shopifyStore: Option<string>,
    shopifyToken: Option<string>,
    everstoxShopId: Option<string>,
    tagWhitelist: Option<string>,
    tagBlacklist: Option<string>,
    dryRun: bool)

  /** One entry of `excluded_sample`. */
  datatype SampleEntry = SampleEntry(id: Option<string>, name: Option<string>, reason: Option<string>)

  datatype ImportResult = ImportResult(
    summary: RunSummary,
    preparedRequest: Request<EverstoxOrder>,
    excludedSample: seq<SampleEntry>)

  const SampleSize: nat := 5

  /** The shop instance id written into every payload entry. */
  function PayloadShopId(settings: Settings): string
  {
    OrStr(settings.everstoxShopId, "SHOP_INSTANCE_UUID")
  }

  /** The shop id the prepared request is addressed to (the second `build_request` call). */
  function RequestShopId(settings: Settings): string
  {
    OrStr(settings.everstoxShopId, "")
  }

  /** The tag rules built from the settings and the two tag functions: the whitelist
      and blacklist parsed from their comma-separated settings (lines 20-21). */
  function RulesOf(settings: Settings, isExcluded: (seq<string>, seq<string>, seq<string>) -> bool,
                   parsePriority: seq<string> -> Option<int>): TagRules
  {
    TagRules(ParseTagList(settings.tagWhitelist), ParseTagList(settings.tagBlacklist), isExcluded, parsePriority)
  }

  /** `excluded_sample`: id, name and reason of the first five excluded orders, in order. */
  function ExcludedSample(excluded: seq<Order>): (sample: seq<SampleEntry>)
    ensures |sample| == if |excluded| < SampleSize then |excluded| else SampleSize
    ensures forall i :: 0 <= i < |sample| ==>
              sample[i] == SampleEntry(excluded[i].id, excluded[i].name, excluded[i].excludeReason)
  {
    var first := if |excluded| < SampleSize then excluded else excluded[..SampleSize];
    seq(|first|, i requires 0 <= i < |first| => SampleEntry(first[i].id, first[i].name, first[i].excludeReason))
  }

  /** `import_orders`, with the fetched orders given. */
  method ImportOrders(settings: Settings, fetched: seq<Order>,
                      isExcluded: (seq<string>, seq<string>, seq<string>) -> bool,
                      parsePriority: seq<string> -> Option<int>,
                      parseDecimal: string -> real)
    returns (result: ImportResult)
    ensures var rules := RulesOf(settings, isExcluded, parsePriority);
            var included, excluded := Included(fetched, rules), Excluded(fetched, rules);
            && result.summary.fetchedTotal == |fetched|
            && result.summary.eligibleTotal == |included|
            && result.summary.excludedTotal == |excluded|
            && result.summary.eligibleTotal + result.summary.excludedTotal == |fetched|
            && (result.summary.exclusionReasons.Some? <==> excluded != [])
            && (result.summary.exclusionReasons.Some? ==> result.summary.exclusionReasons.value == ReasonCounts(excluded))
            && result.preparedRequest
                 == BuildRequest(RequestShopId(settings), ToEverstoxPayload(included, PayloadShopId(settings), parseDecimal))
            && result.preparedRequest.httpMethod == "POST"
            && ShopIdOfUrl(result.preparedRequest.url) == Some(RequestShopId(settings))
            && result.preparedRequest.json == ToEverstoxPayload(included, PayloadShopId(settings), parseDecimal)
            && |result.preparedRequest.json| == |included|
            && result.excludedSample == ExcludedSample(excluded)
  {
    var rules := RulesOf(settings, isExcluded, parsePriority);

    var included, excluded := FilterOrders(fetched, rules);
    FilterPartition(fetched, rules);

    var shopInstanceId := OrStr(settings.everstoxShopId, "SHOP_INSTANCE_UUID");
    var payload := ToEverstoxPayload(included, shopInstanceId, parseDecimal);
    var preparedRequest := BuildRequest(shopInstanceId, payload);

    preparedRequest := BuildRequest(OrStr(settings.everstoxShopId, ""), payload);

    var summary := Summarize(excluded, included);
    var excludedSample := ExcludedSample(excluded);

    result := ImportResult(summary, preparedRequest, excludedSample);
  }

  /** Without an everstox shop id, the payload entries name the placeholder shop
      instance while the request goes to the URL with an empty shop id. */
  lemma UnsetShopIdDisagrees(settings: Settings, included: seq<Order>, parseDecimal: string -> real)
    requires !Truthy(settings.everstoxShopId)
    ensures var payload := ToEverstoxPayload(included, PayloadShopId(settings), parseDecimal);
            && BuildRequest(RequestShopId(settings), payload).url == EndpointPrefix + EndpointSuffix
            && forall i :: 0 <= i < |payload| ==> payload[i].shopInstanceId == "SHOP_INSTANCE_UUID"
  {
    var payload := ToEverstoxPayload(included, PayloadShopId(settings), parseDecimal);
    var url := BuildRequest(RequestShopId(settings), payload).url;
    assert ShopIdOfUrl(url) == Some("");
    assert url[..|EndpointPrefix|] + url[|EndpointPrefix|..|url| - |EndpointSuffix|] + url[|url| - |EndpointSuffix|..] == url;
  }

  /** With a shop id set, request and payload agree on it. */
  lemma SetShopIdAgrees(settings: Settings, included: seq<Order>, parseDecimal: string -> real)
    requires Truthy(settings.everstoxShopId)
    ensures var payload := ToEverstoxPayload(included, PayloadShopId(settings), parseDecimal);
            && ShopIdOfUrl(BuildRequest(RequestShopId(settings), payload).url) == settings.everstoxShopId
            && forall i :: 0 <= i < |payload| ==> Some(payload[i].shopInstanceId) == settings.everstoxShopId
  {
  }

  /** The transformer's re-check of `remaining_qty` keeps every item the filter attached:
      each included order yields one order item per remaining line item, with the
      remaining quantity as its quantity. */
  lemma IncludedItemsAllEmitted(fetched: seq<Order>, rules: TagRules, shopInstanceId: string,
                                parseDecimal: string -> real)
    ensures var included := Included(fetched, rules);
            var payload := ToEverstoxPayload(included, shopInstanceId, parseDecimal);
            forall i :: 0 <= i < |payload| ==>
              && |payload[i].orderItems| == |RemainingOf(included[i])| > 0
              && forall k :: 0 <= k < |payload[i].orderItems| ==>
                   Some(payload[i].orderItems[k].quantity) == RemainingOf(included[i])[k].remainingQty
  {
    var included := Included(fetched, rules);
    var payload := ToEverstoxPayload(included, shopInstanceId, parseDecimal);
    IncludedExactly(fetched, rules);
    forall i | 0 <= i < |payload|
      ensures && |payload[i].orderItems| == |RemainingOf(included[i])| > 0
              && forall k :: 0 <= k < |payload[i].orderItems| ==>
                   Some(payload[i].orderItems[k].quantity) == RemainingOf(included[i])[k].remainingQty
    {
      var idx := KeptIndices(fetched, PickIncluded(rules));
      var source := fetched[idx[i]];
      var items := LineItems(source);
      var remaining := RemainingLineItems(items);
      assert included[i] == Enriched(source, rules);
      assert RemainingOf(included[i]) == remaining;
      RemainingHavePositiveQty(items);
      FilterMapKeepsAll(remaining, PickOrderItem);
    }
  }

  /** Every remaining line item carries a positive `remaining_qty`. */
  lemma RemainingHavePositiveQty(items: seq<LineItem>)
    ensures forall k :: 0 <= k < |RemainingLineItems(items)| ==>
              RemainingLineItems(items)[k].remainingQty.Some? && RemainingLineItems(items)[k].remainingQty.value > 0
  {
    RemainingLineItemsExact(items);
  }

  /** For fetched orders the reason table uses only the four reason labels, never the
      "unknown" fallback. */
  lemma ReasonTableUsesLabels(fetched: seq<Order>, rules: TagRules)
    requires forall i :: 0 <= i < |fetched| ==> Fetched(fetched[i])
    ensures forall key :: key in ReasonCounts(Excluded(fetched, rules)) ==> IsLabel(key) && key != "unknown"
  {
    var excluded := Excluded(fetched, rules);
    ExcludedShape(fetched, rules);
    ReasonCountsKeys(excluded);
    forall key | key in ReasonCounts(excluded)
      ensures IsLabel(key) && key != "unknown"
    {
      var i :| 0 <= i < |excluded| && ReasonKey(excluded[i]) == key;
      assert excluded[i] in excluded;
    }
  }

  /** A paid, unfulfilled order tagged "urgent" with one line item (quantity 3, 1 fulfilled)
      and no customer. */
  function UrgentOrder(): Order
  {
    var item := LineItem(Some("Mug"), Some(3), Some("SKU-1"), None, Some(1), None, None);
    Order(Some("gid://shopify/Order/1"), Some("#1001"), Some("2024-05-01T10:00:00Z"), Some("PAID"),
          Some("UNFULFILLED"), Some(["urgent"]), None, None, None, None, None, None,
          Some(LineItemConnection(Some([item]))), None, None, None)
  }

  /** End to end: when the tag rules let the order through and give "urgent" priority 90,
      the order is included, nothing is excluded, and its payload entry has priority 90,
      the placeholder email and one order item for the two units still to ship. */
  lemma UrgentOrderEndToEnd(rules: TagRules, shopInstanceId: string, parseDecimal: string -> real)
    requires !rules.isExcluded(["urgent"], rules.whitelist, rules.blacklist)
    requires rules.parsePriority(["urgent"]) == Some(90)
    ensures var included := Included([UrgentOrder()], rules);
            && |included| == 1 && Excluded([UrgentOrder()], rules) == []
            && var payload := ToEverstoxPayload(included, shopInstanceId, parseDecimal);
               && |payload| == 1
               && payload[0].orderPriority == Some(90)
               && payload[0].customerEmail == "UNKNOWN_EMAIL"
               && payload[0].orderItems == [OrderItem(2, Product("SKU-1"))]
  {
    UrgentOrderIncluded(rules);
    var e := Enriched(UrgentOrder(), rules);
    UrgentOrderTransformed(e, shopInstanceId, parseDecimal);
  }

  /** The filter step of the end-to-end example. */
  lemma UrgentOrderIncluded(rules: TagRules)
    requires !rules.isExcluded(["urgent"], rules.whitelist, rules.blacklist)
    requires rules.parsePriority(["urgent"]) == Some(90)
    ensures Included([UrgentOrder()], rules) == [Enriched(UrgentOrder(), rules)]
    ensures Excluded([UrgentOrder()], rules) == []
    ensures var e := Enriched(UrgentOrder(), rules);
            && e.orderPriority == Some(Some(90)) && e.customer.None?
            && RemainingOf(e) == [LineItems(UrgentOrder())[0].(remainingQty := Some(2))]
  {
    var o := UrgentOrder();
    var item := LineItems(o)[0];
    assert LineItems(o) == [item];
    assert Tags(o) == ["urgent"];
    assert PickRemaining(item) == Some(item.(remainingQty := Some(2)));
    assert RemainingLineItems(LineItems(o)) == [item.(remainingQty := Some(2))];
    assert Verdict(o, rules).None?;
  }

  /** The transform step of the end-to-end example. */
  lemma UrgentOrderTransformed(e: Order, shopInstanceId: string, parseDecimal: string -> real)
    requires e.orderPriority == Some(Some(90)) && e.customer.None?
    requires RemainingOf(e) == [LineItems(UrgentOrder())[0].(remainingQty := Some(2))]
    ensures var r := Transformed(e, shopInstanceId, parseDecimal);
            && r.orderPriority == Some(90)
            && r.customerEmail == "UNKNOWN_EMAIL"
            && r.orderItems == [OrderItem(2, Product("SKU-1"))]
  {
    var item := LineItems(UrgentOrder())[0].(remainingQty := Some(2));
    assert PickOrderItem(item) == Some(OrderItem(2, Product("SKU-1")));
    assert OrderItems([item]) == [OrderItem(2, Product("SKU-1"))];
  }
}
