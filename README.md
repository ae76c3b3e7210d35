# Storefront product and order services, modelled in Dafny

This project models the data-shaping core of a storefront's two service
modules. One module serves the product catalogue and the other serves
orders. Both call a remote record client. The client's replies are inputs
to the model, and the queries and records the services send are outputs.

- `wrappers.dfy` (`Wrappers`): `Option`, standing for a JavaScript value
  that may be `undefined` or `null` where the services only test its
  truthiness. The price bounds of a listing are tested with `!== undefined`
  instead, so they have their own type, `Products.PriceBound`, which keeps
  `null` apart.
- `js_text.dfy` (`JsText`): the string operations the services use, with
  their JavaScript meaning. This covers truthiness, `trim` (the exact
  ECMAScript whitespace set), `split(',')`, `toLowerCase`, capitalising,
  `includes` and `slice` (negative indices count from the end).
- `seqs.dfy` (`Seqs`): `filter` and `map` on sequences, plus the
  subsequence order they preserve.
- `records.dfy` (`Records`): the remote boundary. It holds the lazily
  created client handle, the where/orderBy/paging query, the replies of
  `fetchRecords`/`getRecordById` and of `createRecord`/`updateRecord`, and
  the `{success, data, error}` answer every public operation returns.
- `products.dfy` (`Products`): `parseMultiPicklist`, `transformProductData`,
  the `getAll` query builder and its client-side filters, `getRelated`'s
  exclude-and-truncate step and `getCategories`' name filter. The
  `ProductsService` class has the lazily initialised `client` field and one
  method per service operation.
- `orders.dfy` (`Orders`): `transformOrderData` with its decode-or-default
  fallbacks, the record `createOrder` writes, the outcome of a write, the
  `getUserOrders` query and search, and the tracking event
  `updateOrderStatus` appends. The `OrderService` class has one method per
  service operation.

JSON is abstracted as a `Codec` (`decode: string -> Option<T>`,
`encode: T -> string`). `decode` answers `None` where `JSON.parse` throws.
Where a property needs real JSON, the lemma requires `RoundTripsAt` for the
values it writes: encoding such a value gives non-empty text that decodes back
to it. Only the tracking codec is asked to round-trip every value
(`RoundTrips`), because a tracking record is made of strings alone. Clock readings are
string parameters. Prices and totals arrive already parsed, as `real`.

The model follows the code as written; in particular:
- An empty `images_c` array yields an empty `images` list. It does not fall
  back to the placeholder (`productsService.js:33`).
- `sizes`/`colors` are arrays that keep duplicates and order, not sets.
- `getById` never calls `initClient`. Unless another operation created the
  client first, it answers "Product not found" (`productsService.js:142-146`).
- `createOrder` and `getOrderById` do not check for a missing client. The
  call on a null client throws, and the `catch` turns that into their usual
  failure answer.
- Some method bodies in `productsService.js` are garbled: `getAll` is nested
  in a duplicate of itself, `getRelated` lacks its first fetch, and a check
  and the export are duplicated. The model follows the evident intent. For
  `getRelated` that means a `getRecordById` lookup of the product, whose
  reply is the `main` parameter.

## Model

| member | source | states |
|---|---|---|
| `JsText.Or` | src/services/api/productsService.js:26 | `x \|\| fallback` on a string: the value when it is present and non-empty, else the fallback |
| `JsText.Trim` | src/services/api/productsService.js:19 | `trim()` removes only whitespace, from both ends, keeps a contiguous infix, and leaves no whitespace at either end |
| `JsText.TrimAll` | src/services/api/productsService.js:19 | `map(v => v.trim())` keeps the number of pieces and trims each in place |
| `JsText.TrimKeepsCharacters` | src/services/api/productsService.js:19 | trimming introduces no character that was not in the string |
| `JsText.TrimIdempotent` | src/services/api/productsService.js:19 | trimming a trimmed string changes nothing |
| `JsText.Split` | src/services/api/productsService.js:19 | `split(',')` gives at least one piece and no piece contains a comma |
| `JsText.JoinSplit` | src/services/api/productsService.js:19 | joining the pieces with commas restores the original string |
| `JsText.SplitJoin` | src/services/api/productsService.js:19 | splitting comma-free pieces joined with commas gives the same pieces back |
| `JsText.Lower` | src/services/api/orderService.js:183 | `toLowerCase()` keeps the length and lower-cases each code unit |
| `JsText.Capitalize` | src/services/api/orderService.js:266 | `charAt(0).toUpperCase() + slice(1)` keeps the length, upper-cases only the first character and keeps the rest verbatim; the empty string stays empty |
| `JsText.IncludesIff` | src/services/api/orderService.js:185-186 | `includes` holds exactly when the needle occurs at some offset |
| `JsText.Includes` | src/services/api/orderService.js:185-186 | the empty needle is in every string and a needle longer than the string is in none |
| `JsText.SliceIndex` | src/services/api/productsService.js:278 | a slice index in range is kept, a negative one counts from the end, and one past either end is clamped to `0` or to the length |
| `JsText.Slice` | src/services/api/productsService.js:278 | `slice(a, b)` is the contiguous infix between the resolved indices, empty when they cross |
| `JsText.SliceFrom` | src/services/api/orderService.js:64 | `slice(a)` is the suffix from the resolved index |
| `JsText.SliceHead` | src/services/api/productsService.js:278 | `slice(0, limit)` with a non-negative limit is the first `min(limit, length)` elements |
| `JsText.SliceLast` | src/services/api/orderService.js:64 | `slice(-k)` is the last `min(k, length)` characters |
| `Seqs.Filter` | src/services/api/productsService.js:114 | `filter` keeps exactly the elements that satisfy the predicate, every occurrence of each, as an order-preserving subsequence |
| `Seqs.FilterTwice` | src/services/api/productsService.js:110-130 | two successive filters equal one filter by the conjunction |
| `Seqs.FilterKeepsAll` | src/services/api/productsService.js:113-130 | a filter every element passes returns the list unchanged |
| `Seqs.SubseqPrefix` | src/services/api/productsService.js:276-278 | truncating a subsequence leaves a subsequence |
| `Seqs.MapSeq` | src/services/api/productsService.js:110 | `map` keeps the length and maps each element in place |
| `Records.Lazily` | src/services/api/productsService.js:9-14 | `initClient` keeps an existing handle and otherwise takes what the factory supplies |
| `Records.Rows` | src/services/api/productsService.js:110 | `response.data \|\| []`: the rows of a reply, or none |
| `Records.FirstResult` | src/services/api/orderService.js:93 | `results && results[0]` exists exactly when the reply has a non-empty results list, and is its first entry |
| `Products.ParseMultiPicklist` | src/services/api/productsService.js:16-21 | an array is returned unchanged; a non-empty string gives its comma-separated pieces, each trimmed, with no comma or edge whitespace left; an empty string, an absent value or any other value gives `[]` |
| `Products.ParseIdempotent` | src/services/api/productsService.js:18 | re-parsing a parse result returns it unchanged |
| `Products.ParseJoinedMatchesItems` | src/services/api/productsService.js:16-21 | a comma-joined string parses to the same labels as the already split array it came from |
| `Products.ImageUrl` | src/services/api/productsService.js:33 | an image address is `url`, else `Url`, else the placeholder, and is never empty |
| `Products.TransformProductData` | src/services/api/productsService.js:23-35 | the product keeps its id; name, description, subcategory and category default to `''` and price to 0; sizes and colours are parsed picklists; images are the placeholder alone when `images_c` is absent, otherwise one non-empty address per entry |
| `Products.CategoryName` | src/services/api/productsService.js:29 | `category_c?.Name` is present exactly when the reference and its name are, and is that name |
| `Products.Views` | src/services/api/productsService.js:110 | transforming fetched records keeps their number, order and ids |
| `Products.ProductQuery` | src/services/api/productsService.js:46-101 | a category equality clause and a lower-cased name `Contains` clause, each present exactly when given; `price-low`, `price-high` and `name` map to price ascending, price descending and name ascending, and any other `sortBy` sends no `orderBy` key |
| `Products.BuildProductQuery` | src/services/api/productsService.js:46-83 | building the query clause by clause with pushes gives exactly that query |
| `Products.AnyMatch` | src/services/api/productsService.js:114-116 | `some(w => have.includes(w))` scanned from the front holds exactly when some wanted label is among the product's labels |
| `Products.Numeric` | src/services/api/productsService.js:125-129 | a numeric bound compares as its value and a `null` bound as 0 |
| `Products.Keeps` | src/services/api/productsService.js:113-130 | a product passes the client-side filters exactly when it has one of the requested sizes and one of the requested colours (when asked for) and its price lies within every defined bound, bounds included; equivalently, it passes the four filters applied in turn |
| `Products.ApplyPostFilters` | src/services/api/productsService.js:112-130 | the successive size, colour and price filters keep exactly the products that pass them all, as an order-preserving subsequence |
| `Products.FilterSamePredicate` | src/services/api/productsService.js:112-130 | filters by predicates that agree on every product give the same list |
| `Products.NoPostFilterKeepsAll` | src/services/api/productsService.js:113-130 | with no size, colour or price filter every fetched product is kept, in order |
| `Products.PriceBoundsInclusive` | src/services/api/productsService.js:125-130 | with two numeric bounds the price filters keep exactly the products within both bounds, bounds included |
| `Products.NullMaxPriceDropsPriced` | src/services/api/productsService.js:128-130 | a `null` upper bound is applied, as 0, so it drops every product with a positive price |
| `Products.SizeFilterAnyMatch` | src/services/api/productsService.js:113-117 | any-match: sizes S and M pass a request for M or L and fail one for L or XL |
| `Products.RelatedRecords` | src/services/api/productsService.js:276-278 | the kept records never include the product itself, are a prefix of the other records in server order and a subsequence of the fetched ones, and number exactly `min(limit, others)` for a non-negative limit |
| `Products.RelatedProducts` | src/services/api/productsService.js:276-279 | the related products never include the product itself and number at most `limit` |
| `Products.RelatedQuery` | src/services/api/productsService.js:245-270 | the related query asks `products_c` for the category, one page from offset 0 holding `limit + 1` records, with no sort order |
| `Products.RelatedPageFillsLimit` | src/services/api/productsService.js:266-278 | with unique ids, a full page of `limit + 1` records still yields exactly `limit` related records after the product itself is excluded |
| `Products.CategoryNames` | src/services/api/productsService.js:309 | the names in order with missing and empty ones dropped: no empty name, every non-empty name kept as often as it occurs |
| `Products.ProductsService.InitClient` | src/services/api/productsService.js:9-14 | the handle is created once and then kept |
| `Products.ProductsService.GetAll` | src/services/api/productsService.js:39-140 | no client, or a failed or raising fetch, gives an unsuccessful answer with an empty list; otherwise it sends the listing query and answers with the transformed, post-filtered products |
| `Products.ProductsService.GetById` | src/services/api/productsService.js:142-176 | without an existing client, or without a record, the product is not found; otherwise it answers with the transformed record |
| `Products.ProductsService.GetFeatured` | src/services/api/productsService.js:178-221 | it queries `featured_c = true`; every failure is an empty success |
| `Products.ProductsService.GetRelated` | src/services/api/productsService.js:223-289 | `limit` defaults to 4; an unknown product is not found; a product without a category has an empty success; otherwise it queries its category for `limit + 1` records and answers with the related products; a failed fetch is an empty success and a raising one a failure |
| `Products.ProductsService.GetCategories` | src/services/api/productsService.js:291-318 | it answers with the non-empty category names; every failure is an empty success |
| `Orders.Recover` | src/services/api/orderService.js:21-46 | a decoded field passes through unchanged, text that decodes gives its value, and a missing field, empty text or text that fails to decode gives the default |
| `Orders.RecoverEncoded` | src/services/api/orderService.js:23 | text written for a value the codec round-trips reads back as that value |
| `Orders.OrderView` | src/services/api/orderService.js:16-58 | the order keeps its id; number and date default to `''`, status to `confirmed` and total to 0; items, address and tracking are recovered with `[]`, `{}` and the empty tracking as defaults; it never fails |
| `Orders.MalformedFieldsFallBack` | src/services/api/orderService.js:21-46 | composite fields that are missing or fail to decode become `[]`, `{}` and `{carrier:"", trackingNumber:"", events:[]}` |
| `Orders.TransformOrderData` | src/services/api/orderService.js:16-58 | the try/catch version with reassigned locals computes exactly that order view |
| `Orders.Views` | src/services/api/orderService.js:179 | transforming fetched records keeps their number and order |
| `Orders.OrderNumber` | src/services/api/orderService.js:64 | `VT` followed by the last six characters of the clock, eight characters when the clock has six or more |
| `Orders.OrderNumberFormat` | src/services/api/orderService.js:64 | a clock of six or more digits gives `VT` and six digits |
| `Orders.InitialTracking` | src/services/api/orderService.js:65-71 | carrier FedEx, tracking number `TRK` and the last eight clock characters, and exactly one event: "Order placed", "Online" |
| `Orders.NewOrder` | src/services/api/orderService.js:73-86 | the new record is named by its order number, has status `confirmed`, total defaults to 0, and items and address default to empty before encoding |
| `Orders.CreatedOrderReadsBack` | src/services/api/orderService.js:73-98 | when the codecs round-trip the items, address and tracking written, reading back the stored new order gives the ordered items, address and total, status confirmed, and tracking with exactly one "Order placed" event |
| `Orders.WriteOutcome` | src/services/api/orderService.js:88-106 | success exactly when the write and its first result succeeded with a record; a reported failure carries its message when one is passed through; every other path fails with a non-empty error |
| `Orders.OrdersQuery` | src/services/api/orderService.js:150-173 | a status clause exactly when a status other than `all` is given; always sorted by order date descending |
| `Orders.BuildOrdersQuery` | src/services/api/orderService.js:150-158 | building the query with a push gives exactly that query |
| `Orders.NameIncludes` | src/services/api/orderService.js:186 | an item matches exactly when it has a name and the query occurs somewhere in its lower-cased form; a nameless item never matches |
| `Orders.MatchesSearch` | src/services/api/orderService.js:184-187 | an order matches exactly when the query occurs somewhere in its lower-cased number or some item matches |
| `Orders.SearchOrders` | src/services/api/orderService.js:181-188 | no search keeps every order; a search keeps exactly the orders whose number or some item name contains the lower-cased term, every occurrence of each, as an order-preserving subsequence |
| `Orders.SearchFindsOrderNumber` | src/services/api/orderService.js:183-185 | an order whose number contains the term as typed, in any case, is found |
| `Orders.SearchIgnoresCase` | src/services/api/orderService.js:183 | terms that differ only in case select the same orders |
| `Orders.StatusEvent` | src/services/api/orderService.js:264-268 | the new event is dated now, located at `Warehouse`, and its status is the new status with the first character upper-cased |
| `Orders.AppendEvent` | src/services/api/orderService.js:269 | the push adds exactly one event at the end; earlier events, carrier and tracking number are unchanged |
| `Orders.EventsOf` | src/services/api/orderService.js:264-269 | a series of status changes appends one event per change |
| `Orders.EventsOfAt` | src/services/api/orderService.js:264-269 | the i-th appended event is the event of the i-th change |
| `Orders.StoreStatus` | src/services/api/orderService.js:254-276 | with a round-tripping codec, reading back the stored text gives the tracking that was read with the new event appended |
| `Orders.StatusChangeStores` | src/services/api/orderService.js:254-276 | one read-modify-write stores the tracking it read plus the new event |
| `Orders.StatusChangesAppend` | src/services/api/orderService.js:254-276 | after N status changes the stored tracking is the original events followed by the N new events in order |
| `Orders.StatusChangesCount` | src/services/api/orderService.js:269 | after N changes there are exactly N more events and the earlier ones are unchanged |
| `Orders.OrderService.InitClient` | src/services/api/orderService.js:9-14 | the handle is created once and then kept |
| `Orders.OrderService.CreateOrder` | src/services/api/orderService.js:60-111 | it writes the new order record and answers per the write outcome, passing a reported message through; without a client it fails with "Failed to create order" |
| `Orders.OrderService.GetOrderById` | src/services/api/orderService.js:113-142 | it answers with the transformed order, or "Order not found" on any failure |
| `Orders.OrderService.GetUserOrders` | src/services/api/orderService.js:143-198 | it sends the status/date query and answers with the transformed orders narrowed by the search; every failure is an empty success |
| `Orders.OrderService.GetOrderTracking` | src/services/api/orderService.js:199-233 | it answers with the order's tracking, recovered with the empty default, or "Order not found" |
| `Orders.OrderService.UpdateOrderStatus` | src/services/api/orderService.js:235-298 | a missing order is not found and a raising lookup fails; otherwise it sends the new status verbatim with the read tracking plus one event, and answers per the write outcome with "Failed to update order status" |

## Left out

- `processPayment` (`orderService.js:299-327`) is left out. It draws a random number after a fixed delay, so it is neither deterministic nor timeless.
- `About.jsx` is left out because it is static presentation.
- The remote record client is not modelled. Its replies are method parameters, and the model does not capture what the backend does with a query (server-side filtering, sorting and paging). So the ordering of `getAll({sortBy: "price-low"})` belongs to the backend, not to the model.
- The field-selection lists (`fields`) of each query are not modelled.
- The `getRecordById` lookups made by `getRelated` and `updateOrderStatus` are not returned as outputs; only their replies enter the model.
- JSON is not modelled beyond the codec abstraction. Valid JSON of the wrong shape, such as `"null"` in `items_c`, is not modelled. Neither is a decoded tracking without an `events` array, on which the push would throw.
- `parseFloat` and `parseInt` are not modelled: prices, totals and ids arrive as numbers, so `NaN` is not modelled.
- Non-string values in string fields are not modelled, for example a number in `name_c`. Neither are non-string entries in a picklist array or a non-string search term.
- `toLowerCase` and `toUpperCase` are modelled on ASCII letters only. Unicode case mappings are not, including the ones that change length such as `ß` to `SS`.
- `Date.now()` and `toISOString()` are left out; their readings are string parameters.
- Logging, `async`/`await` sequencing and the `delay` helper are left out.
- Concurrency is left out. `Orders.StatusChangesAppend` describes status changes made one at a time. Two concurrent `updateOrderStatus` calls on one order can lose an event (last writer wins on the whole tracking text), and the model does not capture that.
- How the backend stores a created record is not modelled. `Orders.Stored` takes it to hand back exactly the fields `createOrder` wrote, under the identity it assigned.
- A price bound that is neither a number, `null` nor `undefined` (a numeric string, say) is not modelled; JavaScript would coerce it before comparing.
