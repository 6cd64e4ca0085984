/** The filter/enrich stage of the importer (connector/importer.py, `_filter_orders`):
    every fetched order gets one verdict, decided by a first-match-wins chain of
    exclusion reasons, and is copied into the included or the excluded list with the
    derived keys attached. The two tag functions are unimplemented in the repository,
    so they are parameters here (`TagRules`) with no behaviour assumed. */
module Filter {
  import opened Common
  import opened Shopify

  /** The caller's whitelist and blacklist and the two tag functions of connector/tags.py:
      `isExcluded(tags, whitelist, blacklist)` and `parsePriority(tags)`. */
  datatype TagRules = TagRules(
    whitelist: seq<string>,
    blacklist: seq<string>,
    isExcluded: (seq<string>, seq<string>, seq<string>) -> bool,
    parsePriority: seq<string> -> Option<int>)

  /** The closed set of exclusion reasons. */
  datatype Reason = NotPaid | Fulfilled | TagExcluded | NoRemainingItems

  /** The string stored under `exclude_reason`. */
  function Label(r: Reason): string
  {
    match r
    case NotPaid => "not_paid"
    case Fulfilled => "fulfilled"
    case TagExcluded => "tag_excluded"
    case NoRemainingItems => "no_remaining_items"
  }

  predicate IsLabel(s: string)
  {
    s == "not_paid" || s == "fulfilled" || s == "tag_excluded" || s == "no_remaining_items"
  }

  /** `(quantity or 0) - (fulfilledQuantity or 0)` */
  function RemainingQty(item: LineItem): int
  {
    OrZero(item.quantity) - OrZero(item.fulfilledQuantity)
  }

  /** A copy of the item carrying its remaining quantity, if that is positive. */
  function PickRemaining(item: LineItem): Option<LineItem>
  {
    if RemainingQty(item) > 0 then Some(item.(remainingQty := Some(RemainingQty(item)))) else None
  }

  /** The line items that still have something to ship, each with `remaining_qty`. */
  function RemainingLineItems(items: seq<LineItem>): seq<LineItem>
  {
    FilterMap(items, PickRemaining)
  }

  /** The verdict on one order: `None` for included, else the first reason that applies. */
  function Verdict(o: Order, rules: TagRules): (v: Option<Reason>)
    ensures v == Some(NotPaid) <==> o.displayFinancialStatus != Some("PAID")
    ensures v == Some(Fulfilled) <==>
              o.displayFinancialStatus == Some("PAID") && o.displayFulfillmentStatus == Some("FULFILLED")
    ensures v == Some(TagExcluded) <==>
              o.displayFinancialStatus == Some("PAID") && o.displayFulfillmentStatus != Some("FULFILLED")
              && rules.isExcluded(Tags(o), rules.whitelist, rules.blacklist)
    ensures v == Some(NoRemainingItems) <==>
              o.displayFinancialStatus == Some("PAID") && o.displayFulfillmentStatus != Some("FULFILLED")
              && !rules.isExcluded(Tags(o), rules.whitelist, rules.blacklist)
              && RemainingLineItems(LineItems(o)) == []
    ensures v.None? ==> RemainingLineItems(LineItems(o)) != []
  {
    if o.displayFinancialStatus != Some("PAID") then Some(NotPaid)
    else if o.displayFulfillmentStatus == Some("FULFILLED") then Some(Fulfilled)
    else if rules.isExcluded(Tags(o), rules.whitelist, rules.blacklist) then Some(TagExcluded)
    else if RemainingLineItems(LineItems(o)) == [] then Some(NoRemainingItems)
    else None
  }

  /** The included copy: the order plus `order_priority` and `remaining_line_items`. */
  function Enriched(o: Order, rules: TagRules): (r: Order)
    ensures r.(orderPriority := o.orderPriority, remainingLineItems := o.remainingLineItems) == o
  {
    o.(orderPriority := Some(rules.parsePriority(Tags(o))),
       remainingLineItems := Some(RemainingLineItems(LineItems(o))))
  }

  /** The excluded copy: the order plus `exclude_reason` and `order_priority`. */
  function Marked(o: Order, reason: Reason, rules: TagRules): (r: Order)
    ensures r.(excludeReason := o.excludeReason, orderPriority := o.orderPriority) == o
  {
    o.(excludeReason := Some(Label(reason)), orderPriority := Some(rules.parsePriority(Tags(o))))
  }

  function PickIncluded(rules: TagRules): Order -> Option<Order>
  {
    o => if Verdict(o, rules).None? then Some(Enriched(o, rules)) else None
  }

  function PickExcluded(rules: TagRules): Order -> Option<Order>
  {
    o => match Verdict(o, rules)
         case None => None
         case Some(reason) => Some(Marked(o, reason, rules))
  }

  /** The included list, in input order. */
  function Included(orders: seq<Order>, rules: TagRules): seq<Order>
  {
    FilterMap(orders, PickIncluded(rules))
  }

  /** The excluded list, in input order. */
  function Excluded(orders: seq<Order>, rules: TagRules): seq<Order>
  {
    FilterMap(orders, PickExcluded(rules))
  }

  /** The inner loop of `_filter_orders`: collect copies of the items with a positive
      remaining quantity. */
  method CollectRemaining(items: seq<LineItem>) returns (remaining: seq<LineItem>)
    ensures remaining == RemainingLineItems(items)
  {
    remaining := [];
    var i := 0;
    while i < |items|
      invariant 0 <= i <= |items|
      invariant remaining == RemainingLineItems(items[..i])
    {
      var item := items[i];
      var qty := OrZero(item.quantity);
      var fulfilled := OrZero(item.fulfilledQuantity);
      var remainingQty := qty - fulfilled;
      assert items[..i + 1][..i] == items[..i];
      if remainingQty > 0 {
        var withRemaining := item.(remainingQty := Some(remainingQty));
        remaining := remaining + [withRemaining];
      }
      i := i + 1;
    }
    assert items[..i] == items;
  }

  /** `_filter_orders`: send every order to exactly one of the two lists. */
  method FilterOrders(orders: seq<Order>, rules: TagRules) returns (included: seq<Order>, excluded: seq<Order>)
    ensures included == Included(orders, rules)
    ensures excluded == Excluded(orders, rules)
  {
    included, excluded := [], [];
    var i := 0;
    while i < |orders|
      invariant 0 <= i <= |orders|
      invariant included == Included(orders[..i], rules)
      invariant excluded == Excluded(orders[..i], rules)
    {
      var order := orders[i];
      var tags := Tags(order);
      var reason: Option<Reason> := None;

      if order.displayFinancialStatus != Some("PAID") {
        reason := Some(NotPaid);
      } else if order.displayFulfillmentStatus == Some("FULFILLED") {
        reason := Some(Fulfilled);
      } else if rules.isExcluded(tags, rules.whitelist, rules.blacklist) {
        reason := Some(TagExcluded);
      }

      var priority := rules.parsePriority(tags);
      var remainingItems := CollectRemaining(LineItems(order));

      if reason.None? && |remainingItems| == 0 {
        reason := Some(NoRemainingItems);
      }

      assert orders[..i + 1][..i] == orders[..i];
      assert reason == Verdict(order, rules);
      if reason.Some? {
        var marked := order.(excludeReason := Some(Label(reason.value)), orderPriority := Some(priority));
        excluded := excluded + [marked];
      } else {
        var enriched := order.(orderPriority := Some(priority), remainingLineItems := Some(remainingItems));
        included := included + [enriched];
      }
      i := i + 1;
    }
    assert orders[..i] == orders;
  }

  /** The remaining items are exactly the items with a positive remaining quantity,
      in their original order, each carrying that quantity as `remaining_qty`. */
  lemma {:induction false} RemainingLineItemsExact(items: seq<LineItem>)
    ensures var r := RemainingLineItems(items);
            var idx := KeptIndices(items, PickRemaining);
            && |r| == |idx|
            && (forall k :: 0 <= k < |idx| ==>
                  RemainingQty(items[idx[k]]) > 0
                  && r[k] == items[idx[k]].(remainingQty := Some(RemainingQty(items[idx[k]]))))
            && (forall k, l :: 0 <= k < l < |idx| ==> idx[k] < idx[l])
            && (forall j :: 0 <= j < |items| ==> (j in idx <==> RemainingQty(items[j]) > 0))
  {
    FilterMapAt(items, PickRemaining);
  }

  /** Every order lands in exactly one of the two lists, so their lengths add up. */
  lemma {:induction false} FilterPartition(orders: seq<Order>, rules: TagRules)
    ensures |Included(orders, rules)| + |Excluded(orders, rules)| == |orders|
    ensures forall j :: 0 <= j < |orders| ==>
              (j in KeptIndices(orders, PickIncluded(rules)) <==> j !in KeptIndices(orders, PickExcluded(rules)))
  {
    FilterMapComplement(orders, PickIncluded(rules), PickExcluded(rules));
  }

  /** The included list is, in input order and without repetition, the enriched copy of
      exactly the orders whose verdict is "included". */
  lemma {:induction false} IncludedExactly(orders: seq<Order>, rules: TagRules)
    ensures var inc := Included(orders, rules);
            var idx := KeptIndices(orders, PickIncluded(rules));
            && |inc| == |idx|
            && (forall k :: 0 <= k < |idx| ==>
                  Verdict(orders[idx[k]], rules).None? && inc[k] == Enriched(orders[idx[k]], rules))
            && (forall k, l :: 0 <= k < l < |idx| ==> idx[k] < idx[l])
            && (forall j :: 0 <= j < |orders| ==> (j in idx <==> Verdict(orders[j], rules).None?))
  {
    FilterMapAt(orders, PickIncluded(rules));
  }

  /** The excluded list is, in input order and without repetition, the marked copy of
      exactly the orders with an exclusion reason, each marked with that reason. */
  lemma {:induction false} ExcludedExactly(orders: seq<Order>, rules: TagRules)
    ensures var exc := Excluded(orders, rules);
            var idx := KeptIndices(orders, PickExcluded(rules));
            && |exc| == |idx|
            && (forall k :: 0 <= k < |idx| ==>
                  Verdict(orders[idx[k]], rules).Some?
                  && exc[k] == Marked(orders[idx[k]], Verdict(orders[idx[k]], rules).value, rules))
            && (forall k, l :: 0 <= k < l < |idx| ==> idx[k] < idx[l])
            && (forall j :: 0 <= j < |orders| ==> (j in idx <==> Verdict(orders[j], rules).Some?))
  {
    FilterMapAt(orders, PickExcluded(rules));
  }

  /** Of fetched orders, every included copy carries a non-empty `remaining_line_items`
      and an `order_priority`, and no `exclude_reason`. */
  lemma IncludedShape(orders: seq<Order>, rules: TagRules)
    requires forall i :: 0 <= i < |orders| ==> Fetched(orders[i])
    ensures forall o :: o in Included(orders, rules) ==>
              && o.remainingLineItems.Some? && o.remainingLineItems.value != []
              && o.orderPriority == Some(rules.parsePriority(Tags(o)))
              && o.excludeReason.None?
  {
    IncludedExactly(orders, rules);
    var inc := Included(orders, rules);
    forall o | o in inc
      ensures && o.remainingLineItems.Some? && o.remainingLineItems.value != []
              && o.orderPriority == Some(rules.parsePriority(Tags(o)))
              && o.excludeReason.None?
    {
      var k :| 0 <= k < |inc| && inc[k] == o;
      var idx := KeptIndices(orders, PickIncluded(rules));
      assert o == Enriched(orders[idx[k]], rules);
    }
  }

  /** Of fetched orders, every excluded copy carries one of the four reasons and an
      `order_priority`, and no `remaining_line_items`. */
  lemma ExcludedShape(orders: seq<Order>, rules: TagRules)
    requires forall i :: 0 <= i < |orders| ==> Fetched(orders[i])
    ensures forall o :: o in Excluded(orders, rules) ==>
              && o.excludeReason.Some? && IsLabel(o.excludeReason.value)
              && o.orderPriority == Some(rules.parsePriority(Tags(o)))
              && o.remainingLineItems.None?
  {
    ExcludedExactly(orders, rules);
    var exc := Excluded(orders, rules);
    forall o | o in exc
      ensures && o.excludeReason.Some? && IsLabel(o.excludeReason.value)
              && o.orderPriority == Some(rules.parsePriority(Tags(o)))
              && o.remainingLineItems.None?
    {
      var k :| 0 <= k < |exc| && exc[k] == o;
      var idx := KeptIndices(orders, PickExcluded(rules));
      assert o == Marked(orders[idx[k]], Verdict(orders[idx[k]], rules).value, rules);
    }
  }

  /** An unpaid order is excluded as `not_paid`, whatever its fulfillment state and tags. */
  lemma PendingIsNotPaid(o: Order, rules: TagRules)
    requires o.displayFinancialStatus == Some("PENDING")
    ensures Included([o], rules) == []
    ensures Excluded([o], rules) == [Marked(o, NotPaid, rules)]
    ensures Excluded([o], rules)[0].excludeReason == Some("not_paid")
  {
    assert Verdict(o, rules) == Some(NotPaid);
  }

  /** A paid, tag-allowed, unfulfilled order whose only line item is fully fulfilled
      (quantity 2, 2 fulfilled) is excluded as `no_remaining_items`. */
  lemma FullyShippedItemsExcluded(o: Order, item: LineItem, rules: TagRules)
    requires o.displayFinancialStatus == Some("PAID") && o.displayFulfillmentStatus == Some("UNFULFILLED")
    requires !rules.isExcluded(Tags(o), rules.whitelist, rules.blacklist)
    requires item.quantity == Some(2) && item.fulfilledQuantity == Some(2)
    requires LineItems(o) == [item]
    ensures Included([o], rules) == []
    ensures Excluded([o], rules) == [Marked(o, NoRemainingItems, rules)]
  {
    assert PickRemaining(item).None?;
    assert RemainingLineItems([item]) == [];
    assert Verdict(o, rules) == Some(NoRemainingItems);
  }
}
