/**
 * The order service: turning raw `orders_c` records, whose composite fields
 * are stored as JSON text, into the order view; the record `createOrder`
 * writes; the listing query and free-text search of `getUserOrders`; and the
 * tracking event `updateOrderStatus` appends.
 */
module Orders {
  import opened Wrappers
  import opened JsText
  import opened Seqs
  import opened Records

  // ------------------------------------------------------------- entities

  /** A line item; beyond its name its fields are opaque to the service. */
  datatype Item = Item(name: Option<string>, quantity: int, price: real)

  /** A shipping address: an opaque key-value object. */
  type Address = map<string, string>

  datatype TrackingEvent = TrackingEvent(date: string, status: string, location: string)

  datatype Tracking = Tracking(carrier: string, trackingNumber: string, events: seq<TrackingEvent>)

  /** The tracking an order has when none can be read. */
  const EmptyTracking: Tracking := Tracking("", "", [])

  /**
   * A composite field as read from the backend: missing (or another falsy
   * value), an already decoded value, or JSON text still to be decoded.
   */
  datatype Composite<T> = Absent | Decoded(value: T) | Encoded(text: string)

  /**
   * `JSON.parse` and `JSON.stringify` for one composite type; `decode`
   * answers `None` where `JSON.parse` throws.
   */
  datatype Codec<!T> = Codec(decode: string -> Option<T>, encode: T -> string)

  /** What JSON promises for one value: encoding it gives non-empty text that decodes back to it. */
  ghost predicate RoundTripsAt<T>(c: Codec<T>, x: T) {
    c.encode(x) != "" && c.decode(c.encode(x)) == Some(x)
  }

  /**
   * The codec round-trips every value. Only stated for types whose values
   * are all finite text (such as `Tracking`); for `seq<Item>`, whose prices
   * are reals, no codec into strings could meet it.
   */
  ghost predicate RoundTrips<T(!new)>(c: Codec<T>) {
    forall x :: RoundTripsAt(c, x)
  }

  datatype OrderCodecs = OrderCodecs(items: Codec<seq<Item>>, address: Codec<Address>, tracking: Codec<Tracking>)

  /** An `orders_c` record; totals arrive already parsed. */
  datatype RawOrder = RawOrder(
    id: int,
    orderNumber: Option<string>,
    orderDate: Option<string>,
    status: Option<string>,
    total: Option<real>,
    items: Composite<seq<Item>>,
    shippingAddress: Composite<Address>,
    tracking: Composite<Tracking>)

  /** The order view handed to the pages. */
  datatype Order = Order(
    id: int,
    orderNumber: string,
    orderDate: string,
    status: string,
    total: real,
    items: seq<Item>,
    shippingAddress: Address,
    tracking: Tracking)

  // ------------------------------------------------------- transformation

  /**
   * One `try { if (field) value = typeof field === 'string' ? JSON.parse(field) : field }
   * catch { value = default }` block: a decoded value passes through, text
   * that decodes gives its value, and everything else gives the default.
   */
  function Recover<T>(field: Composite<T>, decode: string -> Option<T>, default: T): (v: T)
    ensures field.Decoded? ==> v == field.value
    ensures field.Encoded? && field.text != "" && decode(field.text).Some? ==> v == decode(field.text).value
    ensures field.Absent? || (field.Encoded? && (field.text == "" || decode(field.text).None?)) ==> v == default
  {
    match field
    case Absent => default
    case Decoded(value) => value
    case Encoded(text) =>
      if text == "" then default
      else match decode(text)
        case Some(value) => value
        case None => default
  }

  /** Text written by the codec reads back as the value it encodes. */
  lemma RecoverEncoded<T>(c: Codec<T>, x: T, default: T)
    requires RoundTripsAt(c, x)
    ensures Recover(Encoded(c.encode(x)), c.decode, default) == x
  {
  }

  /**
   * `transformOrderData`: never fails; every field of the view gets the
   * record's value when it has one and a fixed default otherwise.
   */
  function OrderView(json: OrderCodecs, r: RawOrder): (o: Order)
    ensures o.id == r.id
    ensures r.orderNumber.Some? ==> o.orderNumber == r.orderNumber.value
    ensures r.orderNumber.None? ==> o.orderNumber == ""
    ensures r.orderDate.Some? ==> o.orderDate == r.orderDate.value
    ensures r.orderDate.None? ==> o.orderDate == ""
    ensures Truthy(r.status) ==> o.status == r.status.value
    ensures !Truthy(r.status) ==> o.status == "confirmed"
    ensures r.total.Some? ==> o.total == r.total.value
    ensures r.total.None? ==> o.total == 0.0
    ensures o.items == Recover(r.items, json.items.decode, [])
    ensures o.shippingAddress == Recover(r.shippingAddress, json.address.decode, map[])
    ensures o.tracking == Recover(r.tracking, json.tracking.decode, EmptyTracking)
  {
    Order(
      r.id,
      Or(r.orderNumber, ""),
      Or(r.orderDate, ""),
      Or(r.status, "confirmed"),
      r.total.GetOr(0.0),
      Recover(r.items, json.items.decode, []),
      Recover(r.shippingAddress, json.address.decode, map[]),
      Recover(r.tracking, json.tracking.decode, EmptyTracking))
  }

  /** A composite field that cannot be read yields its empty default; the transformation does not fail. */
  lemma MalformedFieldsFallBack(json: OrderCodecs, r: RawOrder)
    requires r.items.Absent? || (r.items.Encoded? && json.items.decode(r.items.text).None?)
    requires r.shippingAddress.Absent? || (r.shippingAddress.Encoded? && json.address.decode(r.shippingAddress.text).None?)
    requires r.tracking.Absent? || (r.tracking.Encoded? && json.tracking.decode(r.tracking.text).None?)
    ensures OrderView(json, r).items == []
    ensures OrderView(json, r).shippingAddress == map[]
    ensures OrderView(json, r).tracking == Tracking("", "", [])
  {
  }

  /**
   * `transformOrderData` as the service runs it: three locals start at their
   * defaults and each is overwritten by its own decode attempt.
   */
  method TransformOrderData(json: OrderCodecs, record: RawOrder) returns (order: Order)
    ensures order == OrderView(json, record)
  {
    var items: seq<Item> := [];
    var tracking := EmptyTracking;
    var shippingAddress: Address := map[];

    match record.items {
      case Absent =>
      case Decoded(value) => items := value;
      case Encoded(text) =>
        if text != "" {
          var parsed := json.items.decode(text);
          items := if parsed.Some? then parsed.value else [];
        }
    }

    match record.tracking {
      case Absent =>
      case Decoded(value) => tracking := value;
      case Encoded(text) =>
        if text != "" {
          var parsed := json.tracking.decode(text);
          tracking := if parsed.Some? then parsed.value else EmptyTracking;
        }
    }

    match record.shippingAddress {
      case Absent =>
      case Decoded(value) => shippingAddress := value;
      case Encoded(text) =>
        if text != "" {
          var parsed := json.address.decode(text);
          shippingAddress := if parsed.Some? then parsed.value else map[];
        }
    }

    order := Order(
      record.id,
      Or(record.orderNumber, ""),
      Or(record.orderDate, ""),
      Or(record.status, "confirmed"),
      record.total.GetOr(0.0),
      items,
      shippingAddress,
      tracking);
  }

  /** `(response.data || []).map(transformOrderData)` */
  function Views(json: OrderCodecs, rows: seq<RawOrder>): (os: seq<Order>)
    ensures |os| == |rows|
    ensures forall i :: 0 <= i < |rows| ==> os[i] == OrderView(json, rows[i])
  {
    MapSeq(rows, (r: RawOrder) => OrderView(json, r))
  }

  // --------------------------------------------------------- createOrder

  /** What the checkout passes to `createOrder`. */
  datatype OrderInput = OrderInput(items: Option<seq<Item>>, totalAmount: Option<real>, shippingAddress: Option<Address>)

  /**
   * The clock readings `createOrder` takes, in the order it takes them:
   * `Date.now()` as a decimal string twice, then `toISOString()` twice.
   */
  datatype Clock = Clock(millisForNumber: string, millisForTracking: string, eventDate: string, orderDate: string)

  /** The record `createOrder` sends to `createRecord`, composite fields already encoded. */
  datatype NewOrderRecord = NewOrderRecord(
    name: string,
    orderNumber: string,
    orderDate: string,
    status: string,
    total: real,
    itemsText: string,
    shippingAddressText: string,
    trackingText: string)

  predicate IsDigit(c: char) {
    '0' <= c <= '9'
  }

  /** `VT` followed by the last six characters of the millisecond clock. */
  function OrderNumber(millis: string): (n: string)
    ensures |millis| >= 6 ==> |n| == 8 && n[..2] == "VT" && n[2..] == millis[|millis| - 6..]
    ensures |millis| < 6 ==> n == "VT" + millis
  {
    "VT" + SliceFrom(millis, -6)
  }

  /** A clock of at least six digits gives an order number of the form `VT` and six digits. */
  lemma OrderNumberFormat(millis: string)
    requires |millis| >= 6
    requires forall i :: 0 <= i < |millis| ==> IsDigit(millis[i])
    ensures |OrderNumber(millis)| == 8 && OrderNumber(millis)[..2] == "VT"
    ensures forall i :: 2 <= i < 8 ==> IsDigit(OrderNumber(millis)[i])
  {
    var n := OrderNumber(millis);
    forall i | 2 <= i < 8 ensures IsDigit(n[i]) {
      assert n[i] == n[2..][i - 2] == millis[|millis| - 6 + i - 2];
    }
  }

  /** The tracking of a new order: carrier FedEx and the single event "Order placed", online. */
  function InitialTracking(clock: Clock): (t: Tracking)
    ensures t.carrier == "FedEx"
    ensures t.trackingNumber == "TRK" + SliceFrom(clock.millisForTracking, -8)
    ensures |t.events| == 1
    ensures t.events[0] == TrackingEvent(clock.eventDate, "Order placed", "Online")
  {
    Tracking("FedEx", "TRK" + SliceFrom(clock.millisForTracking, -8),
             [TrackingEvent(clock.eventDate, "Order placed", "Online")])
  }

  /** The record `createOrder` writes: status confirmed, a missing total as 0, missing items and address as empty. */
  function NewOrder(json: OrderCodecs, input: OrderInput, clock: Clock): (rec: NewOrderRecord)
    ensures rec.name == rec.orderNumber == OrderNumber(clock.millisForNumber)
    ensures rec.orderDate == clock.orderDate
    ensures rec.status == "confirmed"
    ensures input.totalAmount.Some? ==> rec.total == input.totalAmount.value
    ensures input.totalAmount.None? ==> rec.total == 0.0
    ensures rec.itemsText == json.items.encode(input.items.GetOr([]))
    ensures rec.shippingAddressText == json.address.encode(input.shippingAddress.GetOr(map[]))
    ensures rec.trackingText == json.tracking.encode(InitialTracking(clock))
  {
    var orderNumber := OrderNumber(clock.millisForNumber);
    NewOrderRecord(
      orderNumber,
      orderNumber,
      clock.orderDate,
      "confirmed",
      input.totalAmount.GetOr(0.0),
      json.items.encode(input.items.GetOr([])),
      json.address.encode(input.shippingAddress.GetOr(map[])),
      json.tracking.encode(InitialTracking(clock)))
  }

  /** The record as the backend stores it and hands it back, under the identity it assigned. */
  function Stored(id: int, rec: NewOrderRecord): RawOrder {
    RawOrder(id, Some(rec.orderNumber), Some(rec.orderDate), Some(rec.status), Some(rec.total),
             Encoded(rec.itemsText), Encoded(rec.shippingAddressText), Encoded(rec.trackingText))
  }

  /**
   * Reading back a created order gives what was ordered: its items, address
   * and total, status confirmed, and the initial tracking with exactly one
   * event.
   */
  lemma CreatedOrderReadsBack(json: OrderCodecs, input: OrderInput, clock: Clock, id: int)
    requires RoundTripsAt(json.items, input.items.GetOr([]))
    requires RoundTripsAt(json.address, input.shippingAddress.GetOr(map[]))
    requires RoundTripsAt(json.tracking, InitialTracking(clock))
    ensures var o := OrderView(json, Stored(id, NewOrder(json, input, clock)));
      && o.id == id
      && o.orderNumber == OrderNumber(clock.millisForNumber)
      && o.status == "confirmed"
      && o.total == input.totalAmount.GetOr(0.0)
      && o.items == input.items.GetOr([])
      && o.shippingAddress == input.shippingAddress.GetOr(map[])
      && o.tracking == InitialTracking(clock)
      && |o.tracking.events| == 1 && o.tracking.events[0].status == "Order placed"
  {
    RecoverEncoded(json.items, input.items.GetOr([]), []);
    RecoverEncoded(json.address, input.shippingAddress.GetOr(map[]), map[]);
    RecoverEncoded(json.tracking, InitialTracking(clock), EmptyTracking);
  }

  /**
   * The answer to a `createRecord` or `updateRecord` call: success exactly
   * when the call succeeded and its first result succeeded with a record.
   * A call that reports failure answers with its own message when
   * `passMessage` holds and it has one; every other failure answers `error`.
   */
  function WriteOutcome(json: OrderCodecs, reply: WriteReply<RawOrder>, error: string, passMessage: bool): (r: Answer<Order>)
    requires error != ""
    ensures r.success <==>
              && reply.WriteReplied? && reply.success
              && FirstResult(reply).Some? && FirstResult(reply).value.success
              && FirstResult(reply).value.data.Some?
    ensures r.success ==> r == Ok(OrderView(json, FirstResult(reply).value.data.value))
    ensures !r.success ==> r.data.None? && r.error.Some? && r.error.value != ""
    ensures reply.WriteReplied? && !reply.success && passMessage ==> r == Fail(Or(reply.message, error))
    ensures !r.success && !(reply.WriteReplied? && !reply.success && passMessage) ==> r == Fail(error)
  {
    if reply.WriteThrew? then Fail(error)
    else if !reply.success then (if passMessage then Fail(Or(reply.message, error)) else Fail(error))
    else
      var first := FirstResult(reply);
      if first.Some? && first.value.success && first.value.data.Some? then Ok(OrderView(json, first.value.data.value))
      else Fail(error)
  }

  // ------------------------------------------------------ getUserOrders

  datatype OrderFilters = OrderFilters(status: Option<string>, search: Option<string>)

  /**
   * The `getUserOrders` query: a status clause exactly when a status other
   * than `all` is asked for, always newest first.
   */
  function OrdersQuery(f: OrderFilters): (q: Query)
    ensures q.table == "orders_c" && q.paging.None?
    ensures q.orderBy == Some([SortDirective("order_date_c", Desc)])
    ensures |q.where| <= 1
    ensures |q.where| == 1 <==> Truthy(f.status) && f.status.value != "all"
    ensures |q.where| == 1 ==> q.where[0] == Condition("status_c", EqualTo, [Text(f.status.value)])
  {
    var where := if Truthy(f.status) && f.status.value != "all"
                 then [Condition("status_c", EqualTo, [Text(f.status.value)])] else [];
    Query("orders_c", where, Some([SortDirective("order_date_c", Desc)]), None)
  }

  /** Builds the `getUserOrders` query the way the service does. */
  method BuildOrdersQuery(f: OrderFilters) returns (q: Query)
    ensures q == OrdersQuery(f)
  {
    var whereConditions: seq<Condition> := [];
    if Truthy(f.status) && f.status.value != "all" {
      whereConditions := whereConditions + [Condition("status_c", EqualTo, [Text(f.status.value)])];
      assert whereConditions == [Condition("status_c", EqualTo, [Text(f.status.value)])];
    }
    q := Query("orders_c", whereConditions, Some([SortDirective("order_date_c", Desc)]), None);
  }

  /**
   * `item.name?.toLowerCase().includes(query)`: the item has a name and the
   * query occurs somewhere in its lower-cased form; a nameless item never
   * matches.
   */
  function NameIncludes(item: Item, query: string): (b: bool)
    ensures b <==> item.name.Some? && exists k :: OccursAt(Lower(item.name.value), query, k)
  {
    if item.name.Some? then
      IncludesIff(Lower(item.name.value), query);
      Includes(Lower(item.name.value), query)
    else false
  }

  /**
   * The search of `getUserOrders`: the query occurs somewhere in the
   * lower-cased order number, or in the lower-cased name of some item.
   */
  function MatchesSearch(o: Order, query: string): (b: bool)
    ensures b <==> (exists k :: OccursAt(Lower(o.orderNumber), query, k)) ||
                   (exists i :: 0 <= i < |o.items| && NameIncludes(o.items[i], query))
  {
    IncludesIff(Lower(o.orderNumber), query);
    Includes(Lower(o.orderNumber), query) || exists i :: 0 <= i < |o.items| && NameIncludes(o.items[i], query)
  }

  /**
   * The client-side search of `getUserOrders`: without a search term every
   * order is kept; with one, the order-preserving subsequence of the orders
   * that match its lower-cased form.
   */
  function SearchOrders(orders: seq<Order>, search: Option<string>): (r: seq<Order>)
    ensures !Truthy(search) ==> r == orders
    ensures SubseqOf(r, orders)
    ensures Truthy(search) ==> forall o :: o in r <==> o in orders && MatchesSearch(o, Lower(search.value))
    ensures Truthy(search) ==> forall o :: multiset(r)[o] == if MatchesSearch(o, Lower(search.value)) then multiset(orders)[o] else 0
  {
    if Truthy(search) then
      var query := Lower(search.value);
      Filter(orders, o => MatchesSearch(o, query))
    else
      SubseqOfSelf(orders);
      orders
  }

  /** Lower-casing commutes with taking an infix. */
  lemma LowerInfix(s: string, i: nat, j: nat)
    requires i <= j <= |s|
    ensures Lower(s)[i..j] == Lower(s[i..j])
  {
  }

  /**
   * The search is case-insensitive: an order whose number contains the
   * term, in whatever case it was typed, is kept.
   */
  lemma {:induction false} SearchFindsOrderNumber(o: Order, term: string)
    requires Includes(o.orderNumber, term)
    ensures MatchesSearch(o, Lower(term))
  {
    IncludesIff(o.orderNumber, term);
    var k :| OccursAt(o.orderNumber, term, k);
    LowerInfix(o.orderNumber, k, k + |term|);
    assert OccursAt(Lower(o.orderNumber), Lower(term), k);
    IncludesIff(Lower(o.orderNumber), Lower(term));
  }

  /** Search terms that differ only in case select the same orders. */
  lemma SearchIgnoresCase(orders: seq<Order>, a: string, b: string)
    requires Lower(a) == Lower(b)
    ensures SearchOrders(orders, Some(a)) == SearchOrders(orders, Some(b))
  {
  }

  // --------------------------------------------------- updateOrderStatus

  /** The event `updateOrderStatus` appends: the status capitalised, at the warehouse. */
  function StatusEvent(now: string, newStatus: string): (e: TrackingEvent)
    ensures e.date == now && e.location == "Warehouse"
    ensures |e.status| == |newStatus|
    ensures newStatus != "" ==> e.status[0] == UpperChar(newStatus[0]) && e.status[1..] == newStatus[1..]
  {
    TrackingEvent(now, Capitalize(newStatus), "Warehouse")
  }

  /** `tracking.events.push(event)`: one event more at the end, nothing earlier changed. */
  function AppendEvent(t: Tracking, e: TrackingEvent): (t': Tracking)
    ensures |t'.events| == |t.events| + 1
    ensures t'.events[..|t.events|] == t.events
    ensures t'.events[|t.events|] == e
    ensures t'.carrier == t.carrier && t'.trackingNumber == t.trackingNumber
  {
    t.(events := t.events + [e])
  }

  /** One requested status change: when it happened and the new status. */
  datatype StatusChange = StatusChange(now: string, newStatus: string)

  function EventOf(c: StatusChange): TrackingEvent {
    StatusEvent(c.now, c.newStatus)
  }

  /** The tracking text stored after one status change, read-modify-write as `updateOrderStatus` does it. */
  function StoreStatus(codec: Codec<Tracking>, stored: string, c: StatusChange): (after: string)
    ensures RoundTrips(codec) ==>
              var before := Recover(Encoded(stored), codec.decode, EmptyTracking);
              Recover(Encoded(after), codec.decode, EmptyTracking) == before.(events := before.events + [EventOf(c)])
  {
    var t := AppendEvent(Recover(Encoded(stored), codec.decode, EmptyTracking), EventOf(c));
    assert RoundTrips(codec) ==> RoundTripsAt(codec, t);
    codec.encode(t)
  }

  /** The stored tracking text after a series of status changes made one at a time. */
  function StoreStatuses(codec: Codec<Tracking>, stored: string, changes: seq<StatusChange>): string
    decreases |changes|
  {
    if changes == [] then stored
    else StoreStatuses(codec, StoreStatus(codec, stored, changes[0]), changes[1..])
  }

  /** The events a series of status changes appends, one per change, in order. */
  function EventsOf(changes: seq<StatusChange>): (es: seq<TrackingEvent>)
    ensures |es| == |changes|
  {
    if changes == [] then [] else [EventOf(changes[0])] + EventsOf(changes[1..])
  }

  /** The `i`-th appended event is the event of the `i`-th change. */
  lemma {:induction false} EventsOfAt(changes: seq<StatusChange>, i: nat)
    requires i < |changes|
    ensures EventsOf(changes)[i] == StatusEvent(changes[i].now, changes[i].newStatus)
  {
    if i > 0 {
      EventsOfAt(changes[1..], i - 1);
    }
  }

  /**
   * The events are append-only: after `N` status changes the stored tracking
   * holds the earlier events unchanged, followed by exactly one event per
   * change, in order.
   */
  lemma {:induction false} StatusChangesAppend(codec: Codec<Tracking>, t: Tracking, changes: seq<StatusChange>)
    requires RoundTrips(codec)
    ensures Recover(Encoded(StoreStatuses(codec, codec.encode(t), changes)), codec.decode, EmptyTracking)
            == t.(events := t.events + EventsOf(changes))
    decreases |changes|
  {
    if changes == [] {
      RecoverEncoded(codec, t, EmptyTracking);
      assert t.events + [] == t.events;
    } else {
      var t1 := AppendEvent(t, EventOf(changes[0]));
      StatusChangeStores(codec, t, changes[0]);
      StatusChangesAppend(codec, t1, changes[1..]);
      AppendThenRest(t, changes);
    }
  }

  /** Appending the first change's event and then the rest's is appending them all. */
  lemma {:induction false} AppendThenRest(t: Tracking, changes: seq<StatusChange>)
    requires changes != []
    ensures AppendEvent(t, EventOf(changes[0])).events + EventsOf(changes[1..]) == t.events + EventsOf(changes)
  {
    var e := EventOf(changes[0]);
    var rest := EventsOf(changes[1..]);
    assert AppendEvent(t, e).events == t.events + [e];
    assert EventsOf(changes) == [e] + rest;
    assert (t.events + [e]) + rest == t.events + ([e] + rest);
  }

  /** One status change stores the tracking it read with the change's event appended. */
  lemma StatusChangeStores(codec: Codec<Tracking>, t: Tracking, c: StatusChange)
    requires RoundTrips(codec)
    ensures StoreStatus(codec, codec.encode(t), c) == codec.encode(AppendEvent(t, EventOf(c)))
  {
    RecoverEncoded(codec, t, EmptyTracking);
  }

  /** So after `N` changes there are exactly `N` more events and the earlier ones are untouched. */
  lemma StatusChangesCount(codec: Codec<Tracking>, t: Tracking, changes: seq<StatusChange>)
    requires RoundTrips(codec)
    ensures var after := Recover(Encoded(StoreStatuses(codec, codec.encode(t), changes)), codec.decode, EmptyTracking);
      && |after.events| == |t.events| + |changes|
      && after.events[..|t.events|] == t.events
      && after.carrier == t.carrier && after.trackingNumber == t.trackingNumber
  {
    StatusChangesAppend(codec, t, changes);
  }

  /** The update `updateOrderStatus` sends: the new status verbatim and the re-encoded tracking. */
  datatype StatusUpdate = StatusUpdate(id: int, status: string, trackingText: string)

  // ------------------------------------------------------------- service

  /** The order service; its only state is the lazily created client handle. */
  class OrderService {
    var client: Option<Client>
    const json: OrderCodecs

    constructor(json: OrderCodecs)
      ensures client == None && this.json == json
    {
      client := None;
      this.json := json;
    }

    /** `initClient`: `supplied` is what the client factory returns on this call. */
    method InitClient(supplied: Option<Client>) returns (c: Option<Client>)
      modifies this
      ensures client == Lazily(old(client), supplied)
      ensures c == client
    {
      if client.None? {
        client := supplied;
      }
      c := client;
    }

    /**
     * `createOrder`: writes the new order record and answers with the
     * created order. Without a client the call fails like any other error.
     */
    method CreateOrder(input: OrderInput, clock: Clock, supplied: Option<Client>, reply: WriteReply<RawOrder>)
      returns (request: Option<NewOrderRecord>, r: Answer<Order>)
      modifies this
      ensures client == Lazily(old(client), supplied)
      ensures client.None? ==> request.None? && r == Fail("Failed to create order")
      ensures client.Some? ==> request == Some(NewOrder(json, input, clock))
      ensures client.Some? ==> r == WriteOutcome(json, reply, "Failed to create order", true)
    {
      var c := InitClient(supplied);
      if c.None? {
        return None, Fail("Failed to create order");
      }
      request := Some(NewOrder(json, input, clock));
      if reply.WriteThrew? {
        return request, Fail("Failed to create order");
      }
      if !reply.success {
        return request, Fail(Or(reply.message, "Failed to create order"));
      }
      var first := FirstResult(reply);
      if first.Some? {
        if first.value.success {
          if first.value.data.None? {
            return request, Fail("Failed to create order");
          }
          var order := TransformOrderData(json, first.value.data.value);
          return request, Ok(order);
        } else {
          return request, Fail("Failed to create order");
        }
      }
      r := Fail("Failed to create order");
    }

    /** `getOrderById`: the order, or "Order not found" on any failure. */
    method GetOrderById(id: int, supplied: Option<Client>, reply: Reply<RawOrder>)
      returns (fetched: Option<int>, r: Answer<Order>)
      modifies this
      ensures client == Lazily(old(client), supplied)
      ensures fetched == if client.Some? then Some(id) else None
      ensures client.None? || !Found(reply) ==> r == Fail("Order not found")
      ensures client.Some? && Found(reply) ==> r == Ok(OrderView(json, reply.data.value))
    {
      var c := InitClient(supplied);
      if c.None? {
        return None, Fail("Order not found");
      }
      fetched := Some(id);
      if !Found(reply) {
        return fetched, Fail("Order not found");
      }
      var order := TransformOrderData(json, reply.data.value);
      r := Ok(order);
    }

    /**
     * `getUserOrders`: the orders with the requested status, newest first,
     * narrowed by the free-text search; any failure is an empty success.
     */
    method GetUserOrders(filters: OrderFilters, supplied: Option<Client>, reply: Reply<seq<RawOrder>>)
      returns (sent: Option<Query>, r: Answer<seq<Order>>)
      modifies this
      ensures client == Lazily(old(client), supplied)
      ensures sent == if client.Some? then Some(OrdersQuery(filters)) else None
      ensures client.None? || !Succeeded(reply) ==> r == Ok([])
      ensures client.Some? && Succeeded(reply) ==> r == Ok(SearchOrders(Views(json, Rows(reply)), filters.search))
    {
      var c := InitClient(supplied);
      if c.None? {
        return None, Ok([]);
      }
      var q := BuildOrdersQuery(filters);
      sent := Some(q);
      if !Succeeded(reply) {
        return sent, Ok([]);
      }
      var orders := Views(json, Rows(reply));
      if Truthy(filters.search) {
        var query := Lower(filters.search.value);
        orders := Filter(orders, o => MatchesSearch(o, query));
      }
      r := Ok(orders);
    }

    /** `getOrderTracking`: the order's tracking, read with the same fallback as the order view. */
    method GetOrderTracking(orderId: int, supplied: Option<Client>, reply: Reply<RawOrder>)
      returns (fetched: Option<int>, r: Answer<Tracking>)
      modifies this
      ensures client == Lazily(old(client), supplied)
      ensures fetched == if client.Some? then Some(orderId) else None
      ensures client.None? || !Found(reply) ==> r == Fail("Order not found")
      ensures client.Some? && Found(reply) ==>
                r == Ok(Recover(reply.data.value.tracking, json.tracking.decode, EmptyTracking))
    {
      var c := InitClient(supplied);
      if c.None? {
        return None, Fail("Order not found");
      }
      fetched := Some(orderId);
      if !Found(reply) {
        return fetched, Fail("Order not found");
      }
      r := Ok(Recover(reply.data.value.tracking, json.tracking.decode, EmptyTracking));
    }

    /**
     * `updateOrderStatus`: reads the order's tracking, pushes one event for
     * the new status and writes the status and the tracking back in one
     * update.
     */
    method UpdateOrderStatus(orderId: int, newStatus: string, now: string, supplied: Option<Client>,
                             current: Reply<RawOrder>, reply: WriteReply<RawOrder>)
      returns (request: Option<StatusUpdate>, r: Answer<Order>)
      modifies this
      ensures client == Lazily(old(client), supplied)
      ensures client.None? ==> request.None? && r == Fail("Order not found")
      ensures client.Some? && current.Threw? ==> request.None? && r == Fail("Failed to update order status")
      ensures client.Some? && current.Replied? && !Found(current) ==> request.None? && r == Fail("Order not found")
      ensures client.Some? && Found(current) ==>
                var before := Recover(current.data.value.tracking, json.tracking.decode, EmptyTracking);
                && request == Some(StatusUpdate(orderId, newStatus,
                                                json.tracking.encode(AppendEvent(before, StatusEvent(now, newStatus)))))
                && r == WriteOutcome(json, reply, "Failed to update order status", false)
    {
      var c := InitClient(supplied);
      if c.None? {
        return None, Fail("Order not found");
      }
      if current.Threw? {
        return None, Fail("Failed to update order status");
      }
      if !Found(current) {
        return None, Fail("Order not found");
      }
      var tracking := Recover(current.data.value.tracking, json.tracking.decode, EmptyTracking);
      var trackingEvent := TrackingEvent(now, Capitalize(newStatus), "Warehouse");
      tracking := tracking.(events := tracking.events + [trackingEvent]);
      request := Some(StatusUpdate(orderId, newStatus, json.tracking.encode(tracking)));
      if reply.WriteThrew? || !reply.success {
        return request, Fail("Failed to update order status");
      }
      var first := FirstResult(reply);
      if first.Some? && first.value.success && first.value.data.Some? {
        var order := TransformOrderData(json, first.value.data.value);
        return request, Ok(order);
      }
      r := Fail("Failed to update order status");
    }
  }
}
