# everstox Shopify connector — filter, transform and request stages in Dafny

This project models the deterministic core of the everstox Shopify connector: the
stage that splits fetched Shopify orders into included and excluded orders and enriches
them (`_filter_orders`), the run summary (`_summarize`), the order transformer that
maps an included order to the everstox order schema (`transform.py`), the dry-run
request builder (`build_request`) and the orchestration that ties them together
(`import_orders`), with the fetched orders given as an input sequence.

Modules, one per source component:

- `Common` — `Option` (a missing key and a JSON null are both `None`, as for `dict.get`),
  Python's `x or default` (`OrStr`, `OrZero`), and `FilterMap`, the order-preserving
  "append the ones that pass" loop shape, with lemmas that pin its output down
  position by position (`KeptIndices`, `FilterMapAt`, `FilterMapComplement`, `FilterMapKeepsAll`).
- `Shopify` — the order, line item, address and money records of the GraphQL orders query,
  plus the three keys the filter adds to its copies.
- `Filter` — `_filter_orders`: the first-match-wins verdict (`Verdict`), the remaining
  quantities, the two copies (`Enriched`, `Marked`) and the imperative `FilterOrders`
  loop, proved equal to the list functions `Included` and `Excluded`.
- `Summary` — `_summarize` as a loop over a reason table, proved equal to
  `ReasonCounts`, whose counts are proved to be per-key order counts that add up to the
  number of excluded orders.
- `TagLists` — the comma-separated whitelist and blacklist settings.
- `Transform` — `transform_order` (a method with the item loop) against its specification
  `Transformed`, the per-field fallback functions, and `to_everstox_payload`.
- `DryRun` — `build_request`.
- `Importer` — `import_orders` and the lemmas that relate the stages.

Inputs that the connector gets from elsewhere are parameters: the fetched orders (the
Shopify client), the two tag functions `is_excluded` and `parse_order_priority`
(bundled with the parsed lists in `Filter.TagRules`), and the decimal-string parser
behind `_to_float` (`parseDecimal`, standing for `float(s)` with 0.0 on failure).

Records are typed by the GraphQL response shape: every field is either absent/null or
of its schema type. An address also has an `EmptyAddress` form for the empty dict `{}`,
the one place where the connector treats an empty record differently from a record
whose keys are all null (`if not addr` in `_map_address`). Python values that are not ints where the transformer checks
`isinstance(..., int)` are represented by `None`, since the source treats them the same
as a missing key.

The request is built twice in `import_orders` (lines 30 and 32); the second call wins,
so the request URL uses `everstox_shop_id or ""` while every payload entry carries
`everstox_shop_id or "SHOP_INSTANCE_UUID"`. The model keeps this as written, and
`Importer.UnsetShopIdDisagrees` states the consequence: with no shop id the URL is
`https://api.demo.everstox.com/shops//orders` while the payload names
`SHOP_INSTANCE_UUID`.

## Model

| member | source | states |
|---|---|---|
| `Filter.FilterOrders` | connector/importer.py:47-105 | the loop's included and excluded lists are exactly `Included(orders)` and `Excluded(orders)` |
| `Filter.CollectRemaining` | connector/importer.py:78-87 | the inner loop returns exactly `RemainingLineItems(items)` |
| `Filter.Verdict` | connector/importer.py:66-73 | first match wins: `not_paid` iff the financial status is not `PAID`; otherwise `fulfilled` iff the fulfillment status is `FULFILLED`; otherwise `tag_excluded` iff `is_excluded`; otherwise `no_remaining_items` iff no line item has remaining quantity; an included order always has remaining items |
| `Filter.Enriched` | connector/importer.py:100-102 | the included copy differs from the order only in `order_priority` and `remaining_line_items` |
| `Filter.Marked` | connector/importer.py:94-96 | the excluded copy differs from the order only in `exclude_reason` and `order_priority` |
| `Filter.RemainingLineItemsExact` | connector/importer.py:78-87 | the remaining items are, in order and without repetition, exactly the items with `(quantity or 0) - (fulfilledQuantity or 0) > 0`, each carrying that value as `remaining_qty` |
| `Filter.FilterPartition` | connector/importer.py:64-105 | every order goes to exactly one of the two lists, so `len(included) + len(excluded) == len(orders)` |
| `Filter.IncludedExactly` | connector/importer.py:100-103 | the included list is, in input order and without repetition, the enriched copy of exactly the orders with no exclusion reason |
| `Filter.ExcludedExactly` | connector/importer.py:93-97 | the excluded list is, in input order and without repetition, the marked copy of exactly the orders with a reason, marked with that reason |
| `Filter.IncludedShape` | connector/importer.py:100-103 | of fetched orders, every included one carries `order_priority` and a non-empty `remaining_line_items`, and no `exclude_reason` |
| `Filter.ExcludedShape` | connector/importer.py:93-97 | of fetched orders, every excluded one carries one of the four reasons and `order_priority`, and no `remaining_line_items` |
| `Filter.PendingIsNotPaid` | connector/importer.py:68-69 | a `PENDING` order is excluded as `not_paid` whatever its fulfillment state and tags, and nothing is included |
| `Filter.FullyShippedItemsExcluded` | connector/importer.py:78-91 | a paid, tag-allowed, unfulfilled order whose only item has quantity 2 and 2 fulfilled is excluded as `no_remaining_items` |
| `Summary.Summarize` | connector/importer.py:108-124 | `fetched_total == excluded_total + eligible_total`, the two totals are the list lengths, and `exclusion_reasons` is present iff some order was excluded, holding `ReasonCounts(excluded)` |
| `Summary.ReasonCounts` | connector/importer.py:117-120 | the reason table is empty iff there are no excluded orders |
| `Summary.ReasonCountsAreCounts` | connector/importer.py:117-120 | a reason is in the table iff some excluded order has it (a missing reason counts as `unknown`), and its entry is the number of such orders |
| `Summary.ReasonCountsSum` | connector/importer.py:117-120 | the reason counts add up to the number of excluded orders |
| `Summary.ReasonCountsKeys` | connector/importer.py:118-120 | the table's keys are exactly the reason keys of the excluded orders |
| `TagLists.ParseTagList` | connector/importer.py:20-21 | every whitelist/blacklist entry is non-empty, comma-free and already stripped |
| `TagLists.ParseTagListPieces` | connector/importer.py:20-21 | the entries are, in order and one each, the stripped `split(",")` pieces of the setting that do not strip to `""`; a piece is kept iff it strips to something |
| `TagLists.ParseTagListExample` | connector/importer.py:20-21 | `" a, ,b "` parses to `["a", "b"]`: surrounding whitespace is stripped and the blank piece dropped |
| `TagLists.ParseTagListRoundTrip` | connector/importer.py:20-21 | a list of clean entries joined with commas parses back to the same list |
| `TagLists.ParseTagListUnset` | connector/importer.py:20-21 | an unset or empty setting gives no entries |
| `TagLists.Split` | connector/importer.py:20 | `split(",")` gives at least one piece, no piece holds a comma, and joining the pieces with commas gives the input back |
| `TagLists.SplitJoin` | connector/importer.py:20 | splitting comma-joined comma-free pieces gives the pieces back |
| `TagLists.TrimStart` | connector/importer.py:20 | leading-whitespace removal leaves the suffix that starts after the leading whitespace |
| `TagLists.TrimEnd` | connector/importer.py:20 | trailing-whitespace removal leaves the prefix that ends before the trailing whitespace |
| `TagLists.Strip` | connector/importer.py:20 | `strip()` leaves only characters of the input, and the result neither starts nor ends with whitespace |
| `TagLists.StripSlice` | connector/importer.py:20 | `strip()` leaves the contiguous slice of the input that has only whitespace before and after it, starting after the leading whitespace |
| `TagLists.StripUnique` | connector/importer.py:20 | any whitespace-bounded slice of the input that neither starts nor ends with whitespace is `strip()`'s result, so `StripSlice` and `Strip`'s end conditions determine it |
| `TagLists.StripIdempotent` | connector/importer.py:20 | stripping twice is stripping once |
| `Importer.ExcludedSample` | connector/importer.py:35-38 | the sample is id, name and reason of the first `min(5, len(excluded))` excluded orders, in order |
| `Importer.ImportOrders` | connector/importer.py:16-44 | the summary counts every fetched order once; the request is exactly `build_request(everstox_shop_id or "", payload)` (a POST with the single JSON `Content-Type` header), whose body is the transformed included orders with the `SHOP_INSTANCE_UUID` fallback; the sample is taken from the excluded list |
| `Importer.UnsetShopIdDisagrees` | connector/importer.py:28-32 | with no shop id the URL has an empty shop segment while every payload entry names `SHOP_INSTANCE_UUID` |
| `Importer.SetShopIdAgrees` | connector/importer.py:28-32 | with a shop id the URL and every payload entry use it |
| `Importer.IncludedItemsAllEmitted` | connector/transform.py:36-47 | for included orders the transformer's re-check drops nothing: one order item per remaining line item, with the remaining quantity |
| `Importer.ReasonTableUsesLabels` | connector/importer.py:93-97 | for fetched orders the summary's reason keys are only the four reason labels, never `unknown` |
| `Importer.UrgentOrderEndToEnd` | connector/importer.py:26-34 | a paid, unfulfilled "urgent" order with one item of quantity 3, 1 fulfilled, that the tag rules allow at priority 90, is the one included order with nothing excluded, and its payload entry has priority 90, `UNKNOWN_EMAIL` and the single order item of quantity 2 |
| `Transform.ClampPriority` | connector/transform.py:26-31 | an int priority comes out in [1,99], unchanged when already there, 1 below and 99 above; a missing priority stays missing |
| `Transform.CustomerEmail` | connector/transform.py:83-86 | the email is never empty: the customer's email when truthy, else `UNKNOWN_EMAIL` |
| `Transform.MapAddress` | connector/transform.py:89-103 | a missing, null or empty (`{}`) address maps to none; otherwise each of the nine fields is the source value when truthy and `""` otherwise, and the country code prefers `countryCodeV2` over `countryCode` |
| `Transform.MapAddressRoundTrip` | connector/transform.py:89-103 | an address already in everstox form maps to itself |
| `Transform.ShopMoney` | connector/transform.py:106-114 | no money when the set, its `shopMoney`, or both amount and currency are missing; otherwise amount and currency copied, at least one present |
| `Transform.Sku` | connector/transform.py:38 | the SKU is never empty: the item's SKU, else the variant's, else `UNKNOWN_SKU` |
| `Transform.OrderItemsExact` | connector/transform.py:36-47 | the emitted items are, in order, exactly the line items whose `remaining_qty` is a positive int, each with that quantity and its fallback SKU |
| `Transform.CollectOrderItems` | connector/transform.py:36-47 | the item loop with `continue` returns exactly `OrderItems(items)`, every quantity positive |
| `Transform.Transformed` | connector/transform.py:17-80 | the transformed order keeps name, date and financial status; priority is present iff the order has an int priority and lies in [1,99]; the email is never empty; each address is null exactly when its source is missing, null or `{}`; shipping price and totals are null exactly when their money is; shipping tax and net are 0.0; totals tax is 0.0 without tax money; at most one order item per remaining line item, each with positive quantity and a SKU |
| `Transform.TransformOrder` | connector/transform.py:17-80 | the imperative `transform_order` returns exactly `Transformed(order)` |
| `Transform.ToEverstoxPayload` | connector/transform.py:13-14 | one transformed order per input order, in the same order, each for the given shop instance |
| `DryRun.BuildRequest` | connector/dry_run.py:10-22 | the request is a POST with exactly the `Content-Type: application/json` header, the payload unchanged as body, and a URL on the everstox orders endpoint from which the shop id reads back |
| `DryRun.UrlIdentifiesShop` | connector/dry_run.py:14 | requests for different shops have different URLs |

## Left out

- The Shopify client (connector/shopify_client.py): every query method is unimplemented,
  its throttling, backoff and pagination exist only as TODOs, and `import_orders` calls
  `fetch_recent_orders(14)` against a signature that takes no argument. The fetched
  orders are an input sequence; the `with` scope that closes the client is I/O lifetime.
- connector/tags.py: `parse_order_priority` and `is_excluded` only raise
  `NotImplementedError`; they are function parameters with no behaviour assumed, so no
  priority range or tag rule is proved.
- `_to_float`: float parsing is the `parseDecimal` parameter; no floating-point semantics
  are modelled (prices are `real`). Only `float(None)` raising is modelled, as 0.0.
- Ill-typed JSON: values of the wrong type (a string quantity, a non-dict address) raise in
  Python and are outside the typed records of the model. So is a key the connector reads
  with a default that holds null instead (`nodes` at connector/importer.py:79,
  `remaining_line_items` at connector/transform.py:37): Python iterates over `None` and
  raises, while the model's `None` stands for the missing key and gives `[]`.
- Python's `bool` is a subclass of `int`: a `True`/`False` priority or `remaining_qty` would
  pass the transformer's `isinstance` check; the model's `Option<int>` has no such values.
- Dictionary key order (insertion order of the reason table and of the output objects) is
  not modelled: the reason table is a `map` and objects are datatypes with fixed fields.
- `str.strip()` is modelled with the whitespace characters of `str.isspace()` listed
  explicitly; no other Unicode handling is modelled.
- connector/config.py (environment loading), cli.py (argument parsing),
  connector/shopify_queries.py (a query string; it does not request `fulfilledQuantity`,
  which the model treats as an optional field) and connector/__init__.py are not part of
  this model.
