/** The live broker adapter and the broker's order book (execution/kite_broker.py). */
module KiteBroking {
  import opened Prelude
  import opened OrderedDict
  import opened Models
  import opened OrderStoring

  // ----- The broker's order book

  datatype BookRow = BookRow(orderId: string, tag: Option<string>, status: string, statusMessage: Option<string>,
                             filledQuantity: int, averagePrice: Option<real>,
                             instrument: string, exchange: string, side: OrderSide, quantity: int, time: Timestamp)

  /** A well-formed row: a positive order quantity and prices and fills that are not negative. */
  type Row = r: BookRow | r.quantity > 0 && r.filledQuantity >= 0
      && (r.averagePrice.Some? ==> r.averagePrice.value >= 0.0)
    witness BookRow("1", None, "OPEN", None, 0, None, "A", "X", BUY, 1, Timestamp(0, Date(2000, 1, 1)))

  type Book = seq<Row>

  predicate HasTag(row: Row, tag: string) { row.tag == Some(tag) }

  function FirstRow(book: Book, tag: string): Option<Row> {
    if |book| == 0 then None
    else if HasTag(book[0], tag) then Some(book[0])
    else FirstRow(book[1..], tag)
  }

  function LastRow(book: Book, tag: string): Option<Row> {
    if |book| == 0 then None
    else if HasTag(book[|book| - 1], tag) then Some(book[|book| - 1])
    else LastRow(book[..|book| - 1], tag)
  }

  lemma {:induction false} FirstRowFinds(book: Book, tag: string)
    ensures FirstRow(book, tag).Some? ==> FirstRow(book, tag).value in book && HasTag(FirstRow(book, tag).value, tag)
    ensures FirstRow(book, tag).None? ==> forall row | row in book :: !HasTag(row, tag)
  {
    if |book| > 0 && !HasTag(book[0], tag) {
      FirstRowFinds(book[1..], tag);
      assert forall row | row in book :: row == book[0] || row in book[1..];
    }
  }

  lemma {:induction false} LastRowFinds(book: Book, tag: string)
    ensures LastRow(book, tag).Some? ==> LastRow(book, tag).value in book && HasTag(LastRow(book, tag).value, tag)
    ensures LastRow(book, tag).None? ==> forall row | row in book :: !HasTag(row, tag)
  {
    if |book| > 0 && !HasTag(book[|book| - 1], tag) {
      LastRowFinds(book[..|book| - 1], tag);
      assert forall row | row in book :: row == book[|book| - 1] || row in book[..|book| - 1];
    }
  }

  // ----- Orders built from rows

  function StatusOf(status: string): OrderStatus {
    var upper := Upper(status);
    if upper == "COMPLETE" then FILLED
    else if upper == "REJECTED" then REJECTED
    else if upper == "CANCELLED" then CANCELLED
    else SUBMITTED
  }

  function BuildOrder(request: OrderRequest, brokerId: string, now: Timestamp): Order {
    Order(request, SUBMITTED, Some(brokerId), [], None, now, now)
  }

  predicate HasFillPrice(row: Row) { row.averagePrice.Some? && row.averagePrice.value != 0.0 }

  /** _apply_broker_state: status, rejection reason, and fills replaced by the row's cumulative fill when it differs. */
  function Synced(order: Order, row: Row, now: Timestamp): Order {
    var status := StatusOf(row.status);
    order.(
      status := status,
      updatedAt := now,
      rejection := if status.REJECTED?
                   then Some(ByBroker(if row.statusMessage.Some? && row.statusMessage.value != ""
                       then row.statusMessage.value
                                      else "rejected by broker"))
                   else order.rejection,
      fills := if row.filledQuantity != FilledQuantity(order.fills) && row.filledQuantity > 0 && HasFillPrice(row)
               then [Fill(0, row.filledQuantity, row.averagePrice.value, row.time, 0.0)]
               else order.fills)
  }

  /**
   * After a resync the recorded quantity is the broker's exactly when it already was, or the broker reports a
   * positive fill with a price: a stale fill outlives a row that reports none.
   */
  lemma ResyncIsExactWhen(order: Order, row: Row, now: Timestamp)
    ensures FilledQuantity(Synced(order, row, now).fills) == row.filledQuantity <==>
            FilledQuantity(order.fills) == row.filledQuantity || (row.filledQuantity > 0 && HasFillPrice(row))
  {
    var fill := Fill(0, row.filledQuantity, if HasFillPrice(row) then row.averagePrice.value else 0.0, row.time, 0.0);
    assert [fill][..0] == [];
    assert FilledQuantity([fill]) == row.filledQuantity;
  }

  /** What the broker's word for a status means, whatever its case. */
  predicate ShowsStatus(status: OrderStatus, word: string) {
    && (status == FILLED <==> Upper(word) == "COMPLETE")
    && (status == REJECTED <==> Upper(word) == "REJECTED")
    && (status == CANCELLED <==> Upper(word) == "CANCELLED")
    && (status == SUBMITTED <==> Upper(word) != "COMPLETE" && Upper(word) != "REJECTED" && Upper(word) != "CANCELLED")
  }

  /** The words of an order that nothing will happen to any more. */
  predicate Settles(word: string) {
    Upper(word) == "COMPLETE" || Upper(word) == "REJECTED" || Upper(word) == "CANCELLED"
  }

  lemma StatusIsShown(word: string)
    ensures ShowsStatus(StatusOf(word), word)
  {}

  function RequestFrom(id: OrderId, row: Row): OrderRequest {
    OrderRequest(id, row.instrument, row.exchange, row.side, row.quantity)
  }

  // ----- The platform: the book, the persisted store, and the process's cache

  datatype Platform = Platform(book: Book, store: Entries, cache: Dict<OrderId, Order>)

  /** What happens to a submission: it never arrives, arrives but the answer is lost, or arrives and is answered. */
  datatype Fate = Lost | Unanswered(row: Row) | Answered(row: Row)

  /** A row that could be the broker's record of a request with this tag. */
  predicate Records(row: Row, request: OrderRequest, tag: string) {
    && row.tag == Some(tag) && row.instrument == request.instrument && row.exchange == request.exchange
    && row.side == request.side && row.quantity == request.quantity
  }

  function BookAfter(book: Book, fate: Fate): Book {
    if fate.Lost? then book else book + [fate.row]
  }

  /** The order already known for a request: cached, or found in the book by the tag of a stored attempt. */
  function KnownOrder(p: Platform, request: OrderRequest, now: Timestamp): Option<Order> {
    if request.id in p.cache.data then Some(p.cache.data[request.id])
    else if request.id in p.store.data then
      var row := FirstRow(p.book, p.store.data[request.id].tag);
      if row.Some? then Some(Synced(BuildOrder(request, row.value.orderId, now), row.value, now)) else None
    else None
  }

  function Remembered(p: Platform, id: OrderId, order: Order): Platform {
    p.(cache := p.cache.Put(id, order))
  }

  /** An uninterrupted place_order call. */
  function AfterPlace(p: Platform, tagOf: TagScheme, request: OrderRequest, fate: Fate, now: Timestamp)
    : (Platform, Result<Order, Error>)
  {
    var known := KnownOrder(p, request, now);
    if known.Some? then (Remembered(p, request.id, known.value), Ok(known.value))
    else
      var attempted := p.(store := AfterBegin(p.store, tagOf, request.id));
      var sent := attempted.(book := BookAfter(p.book, fate));
      if !fate.Answered? then (sent, Err(ConnectionLost))
      else
        var store := AfterSubmitted(sent.store, request.id, fate.row.orderId).value;
        var order := BuildOrder(request, fate.row.orderId, now);
        (Remembered(sent.(store := store), request.id, order), Ok(order))
  }

  /** The row hydrate finds: the last with the tag; rows and entries with an empty tag are skipped. */
  function HydratedRow(book: Book, tag: string): Option<Row> {
    if tag == "" then None else LastRow(book, tag)
  }

  /** The cache after hydrating from the first n stored entries. */
  function HydratedCache(p: Platform, n: nat, now: Timestamp): Dict<OrderId, Order>
    requires n <= |p.store.keys| && forall k | k in p.store.keys :: k in p.store.data
  {
    if n == 0 then p.cache
    else
      var id, before := p.store.keys[n - 1], HydratedCache(p, n - 1, now);
      var row := HydratedRow(p.book, p.store.data[id].tag);
      if row.None? then before
      else before.Put(id, Synced(BuildOrder(RequestFrom(id, row.value), row.value.orderId, now), row.value, now))
  }

  function AfterHydrate(p: Platform, now: Timestamp): Platform
    requires p.store.Valid()
  {
    p.(cache := HydratedCache(p, |p.store.keys|, now))
  }

  /** The row of an order id, as order_history reports it last. */
  function RowOf(book: Book, orderId: string): Option<Row> {
    if |book| == 0 then None
    else if book[|book| - 1].orderId == orderId then Some(book[|book| - 1])
    else RowOf(book[..|book| - 1], orderId)
  }

  function AfterRefresh(p: Platform, id: OrderId, now: Timestamp): (Platform, Result<Option<Order>, Error>) {
    if id !in p.cache.data then (p, Ok(None))
    else if p.cache.data[id].brokerId.None? then (p, Ok(Some(p.cache.data[id])))
    else
      var row := RowOf(p.book, p.cache.data[id].brokerId.value);
      if row.None? then (p, Ok(Some(p.cache.data[id])))
      else
        var order := Synced(p.cache.data[id], row.value, now);
        var synced := Remembered(p, id, order);
        if !order.status.IsTerminal() then (synced, Ok(Some(order)))
        else
          match AfterTerminal(p.store, id)
          case Err(e) => (synced, Err(e))
          case Ok(store) => (synced.(store := store), Ok(Some(order)))
  }

  /** The book once the broker has cancelled an order. */
  function CancelledBook(book: Book, orderId: string): (r: Book)
    ensures |r| == |book|
  {
    seq(|book|, i requires 0 <= i < |book| =>
      if book[i].orderId == orderId then book[i].(status := "CANCELLED") else book[i])
  }

  function AfterCancel(p: Platform, id: OrderId, accepted: bool, now: Timestamp): (Platform, Result<Order, Error>) {
    if id !in p.cache.data then (p, Err(KeyError))
    else
      var order := p.cache.data[id];
      if order.status.IsTerminal() || order.brokerId.None? then (p, Err(ValueError))
      else if !accepted then (p, Err(ConnectionLost))
      else
        var cancelled := order.(status := CANCELLED, updatedAt := now);
        var after := Remembered(p.(book := CancelledBook(p.book, order.brokerId.value)), id, cancelled);
        match AfterTerminal(p.store, id)
        case Err(e) => (after, Err(e))
        case Ok(store) => (after.(store := store), Ok(cancelled))
  }

  /** The broker's side; the book outlives every process. */
  class KiteClient {
    var book: Book

    method PlaceOrder(request: OrderRequest, tag: string, fate: Fate) returns (r: Result<string, Error>)
      requires !fate.Lost? ==> Records(fate.row, request, tag)
      modifies this
      ensures book == BookAfter(old(book), fate)
      ensures r == if fate.Answered? then Ok(fate.row.orderId) else Err(ConnectionLost)
    {
      if fate.Lost? {
        return Err(ConnectionLost);
      }
      book := book + [fate.row];
      return if fate.Answered? then Ok(fate.row.orderId) else Err(ConnectionLost);
    }

    method CancelOrder(orderId: string, accepted: bool) returns (r: Result<(), Error>)
      modifies this
      ensures book == if accepted then CancelledBook(old(book), orderId) else old(book)
      ensures r.Ok? <==> accepted
      ensures r.Err? ==> r.error == ConnectionLost
    {
      if !accepted {
        return Err(ConnectionLost);
      }
      book := CancelledBook(book, orderId);
      return Ok(());
    }
  }

  class KiteBrokerAdapter {
    const client: KiteClient
    const store: OrderStore
    var orders: Dict<OrderId, Order>

    ghost predicate Valid()
      reads this, store
    {
      store.Valid() && orders.Valid()
    }

    function View(): Platform
      reads this, client, store
    {
      Platform(client.book, store.file, orders)
    }

    /** A new process: an empty cache over the surviving book and store. */
    constructor (client: KiteClient, store: OrderStore)
      requires store.Valid()
      ensures Valid() && this.client == client && this.store == store
      ensures View() == Platform(client.book, store.file, Empty())
    {
      this.client, this.store, this.orders := client, store, Empty();
    }

    /** _recover_from_broker: the first row with the tag. */
    method RecoverFromBroker(request: OrderRequest, tag: string, now: Timestamp) returns (r: Option<Order>)
      ensures var row := FirstRow(client.book, tag);
              r == if row.Some? then Some(Synced(BuildOrder(request, row.value.orderId, now), row.value, now)) else None
    {
      hide Synced, BuildOrder;
      var i := 0;
      while i < |client.book|
        invariant i <= |client.book|
        invariant FirstRow(client.book, tag) == FirstRow(client.book[i..], tag)
      {
        assert client.book[i..][1..] == client.book[i + 1..];
        var row := client.book[i];
        if row.tag == Some(tag) {
          return Some(Synced(BuildOrder(request, row.orderId, now), row, now));
        }
        i := i + 1;
      }
      return None;
    }

    /** place_order: cached, recovered, or a fresh submission under a persisted attempt. */
    method PlaceOrder(request: OrderRequest, fate: Fate, now: Timestamp) returns (r: Result<Order, Error>)
      requires Valid()
      requires !fate.Lost? ==> Records(fate.row, request, store.tagOf(request.id))
      modifies this, client, store
      ensures Valid()
      ensures AfterPlace(old(View()), store.tagOf, request, fate, now) == (View(), r)
    {
      hide Synced, BuildOrder, FirstRow, Records;
      if request.id in orders.data {
        ReputIsNoChange(orders, request.id);
        return Ok(orders.data[request.id]);
      }
      var existing := store.Get(request.id);
      if existing.Some? {
        var recovered := RecoverFromBroker(request, existing.value.tag, now);
        if recovered.Some? {
          orders := orders.Put(request.id, recovered.value);
          return Ok(recovered.value);
        }
      }
      var entry := store.BeginAttempt(request.id);
      var answer := client.PlaceOrder(request, entry.tag, fate);
      if answer.Err? {
        return Err(answer.error);
      }
      var marked := store.MarkSubmitted(request.id, answer.value);
      assert marked.Ok?;
      var order := BuildOrder(request, answer.value, now);
      orders := orders.Put(request.id, order);
      return Ok(order);
    }

    /** hydrate: rebuild the cache from the stored tags and the last row of each tag. */
    method Hydrate(now: Timestamp)
      requires Valid()
      modifies this
      ensures Valid() && View() == AfterHydrate(old(View()), now)
    {
      hide Synced, BuildOrder, RequestFrom, HydratedRow;
      ghost var start := View();
      var rowsByTag := RowsByTag(client.book);
      var ids := store.entries.keys;
      for i := 0 to |ids|
        invariant orders == HydratedCache(start, i, now) && orders.Valid()
        invariant client.book == start.book && store.file == start.store && store.Valid()
      {
        var entry := store.entries.data[ids[i]];
        if entry.tag in rowsByTag {
          var row := rowsByTag[entry.tag];
          orders := orders.Put(ids[i], Synced(BuildOrder(RequestFrom(ids[i], row), row.orderId, now), row, now));
        }
      }
    }

    method CancelOrder(id: OrderId, accepted: bool, now: Timestamp) returns (r: Result<Order, Error>)
      requires Valid()
      modifies this, client, store
      ensures Valid()
      ensures AfterCancel(old(View()), id, accepted, now) == (View(), r)
    {
      hide CancelledBook;
      if id !in orders.data {
        return Err(KeyError);
      }
      var order := orders.data[id];
      if order.status.IsTerminal() {
        return Err(ValueError);
      }
      if order.brokerId.None? {
        return Err(ValueError);
      }
      var answer := client.CancelOrder(order.brokerId.value, accepted);
      if answer.Err? {
        return Err(ConnectionLost);
      }
      order := order.(status := CANCELLED, updatedAt := now);
      orders := orders.Put(id, order);
      var marked := store.MarkTerminal(id);
      return if marked.Err? then Err(marked.error) else Ok(order);
    }

    method RefreshOrder(id: OrderId, now: Timestamp) returns (r: Result<Option<Order>, Error>)
      requires Valid()
      modifies this, store
      ensures Valid()
      ensures AfterRefresh(old(View()), id, now) == (View(), r)
    {
      hide Synced, RowOf;
      if id !in orders.data {
        return Ok(None);
      }
      var order := orders.data[id];
      if order.brokerId.None? {
        return Ok(Some(order));
      }
      var latest := RowOf(client.book, order.brokerId.value);
      if latest.None? {
        return Ok(Some(order));
      }
      order := Synced(order, latest.value, now);
      orders := orders.Put(id, order);
      if order.status.IsTerminal() {
        var marked := store.MarkTerminal(id);
        if marked.Err? {
          return Err(marked.error);
        }
      }
      return Ok(Some(order));
    }
  }

  lemma ReputIsNoChange(d: Dict<OrderId, Order>, id: OrderId)
    requires id in d.data
    ensures d.Put(id, d.data[id]) == d
  {}

  /** The tagged rows of the book by their tags; of several with one tag, the last. */
  method RowsByTag(book: Book) returns (rows: map<string, Row>)
    ensures forall tag :: if tag in rows then HydratedRow(book, tag) == Some(rows[tag])
            else HydratedRow(book, tag).None?
  {
    rows := map[];
    for i := 0 to |book|
      invariant forall tag :: if tag in rows then HydratedRow(book[..i], tag) == Some(rows[tag])
                              else HydratedRow(book[..i], tag).None?
    {
      assert book[..i + 1][..i] == book[..i];
      if book[i].tag.Some? && book[i].tag.value != "" {
        rows := rows[book[i].tag.value := book[i]];
      }
    }
    assert book[..|book|] == book;
  }
}
