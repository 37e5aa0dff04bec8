/** What the live adapter's calls leave behind, told in the book's rows and the broker's own words. */
module KiteLaws {
  import opened Prelude
  import opened OrderedDict
  import opened Models
  import opened OrderStoring
  import opened KiteBroking

  // ----- Which row a call reads

  /** The row at an index is the last with its order id. */
  predicate LastWithId(book: Book, i: nat, orderId: string) {
    i < |book| && book[i].orderId == orderId && forall j | i < j < |book| :: book[j].orderId != orderId
  }

  lemma {:induction false} RowOfIsLast(book: Book, i: nat, orderId: string)
    requires LastWithId(book, i, orderId)
    ensures RowOf(book, orderId) == Some(book[i])
  {
    if i < |book| - 1 {
      RowOfIsLast(book[..|book| - 1], i, orderId);
    }
  }

  lemma {:induction false} NoRow(book: Book, orderId: string)
    requires forall row | row in book :: row.orderId != orderId
    ensures RowOf(book, orderId).None?
  {
    if |book| > 0 {
      assert book[|book| - 1] in book;
      NoRow(book[..|book| - 1], orderId);
    }
  }

  /** The row at an index is the first with its tag. */
  predicate FirstWithTag(book: Book, i: nat, tag: string) {
    i < |book| && book[i].tag == Some(tag) && forall j | 0 <= j < i :: book[j].tag != Some(tag)
  }

  lemma {:induction false} FirstRowIsFirst(book: Book, i: nat, tag: string)
    requires FirstWithTag(book, i, tag)
    ensures FirstRow(book, tag) == Some(book[i])
  {
    if i > 0 {
      assert book[0].tag != Some(tag);
      FirstRowIsFirst(book[1..], i - 1, tag);
    }
  }

  predicate LastWithTag(book: Book, i: nat, tag: string) {
    i < |book| && book[i].tag == Some(tag) && forall j | i < j < |book| :: book[j].tag != Some(tag)
  }

  lemma {:induction false} LastRowIsLast(book: Book, i: nat, tag: string)
    requires LastWithTag(book, i, tag)
    ensures LastRow(book, tag) == Some(book[i])
  {
    if i < |book| - 1 {
      LastRowIsLast(book[..|book| - 1], i, tag);
    }
  }

  // ----- What a row says about an order

  /** The order's state is the row's: status, rejection message, and the fill when the row has one with a price. */
  predicate Reads(before: Order, after: Order, row: Row, now: Timestamp) {
    && ShowsStatus(after.status, row.status) && after.updatedAt == now
    && after.request == before.request && after.brokerId == before.brokerId && after.createdAt == before.createdAt
    && (Upper(row.status) != "REJECTED" ==> after.rejection == before.rejection)
    && (Upper(row.status) == "REJECTED" && row.statusMessage.Some? && row.statusMessage.value != "" ==>
          after.rejection == Some(ByBroker(row.statusMessage.value)))
    && (Upper(row.status) == "REJECTED" && (row.statusMessage.None? || row.statusMessage.value == "") ==>
          after.rejection == Some(ByBroker("rejected by broker")))
    && if row.filledQuantity > 0 && row.filledQuantity != FilledQuantity(before.fills) &&
          row.averagePrice.Some? && row.averagePrice.value != 0.0
       then
         && |after.fills| == 1 && after.fills[0].quantity == row.filledQuantity
         && after.fills[0].price == row.averagePrice.value && after.fills[0].time == row.time
         && after.fills[0].commission == 0.0
       else after.fills == before.fills
  }

  lemma SyncReads(order: Order, row: Row, now: Timestamp)
    ensures Reads(order, Synced(order, row, now), row, now)
  {
    hide StatusOf, Upper, FilledQuantity;
    StatusIsShown(row.status);
    RejectedWord(row.status);
  }

  lemma RejectedWord(word: string)
    ensures StatusOf(word) == REJECTED <==> Upper(word) == "REJECTED"
  {
    StatusIsShown(word);
    hide StatusOf;
  }

  // ----- Refreshing and recovering

  /**
   * A refresh gives the cached order the state its last row shows, and records it as settled exactly when the row's
   * word is one of the three final ones; the book and every other order stay.
   */
  lemma RefreshReadsTheRow(p: Platform, id: OrderId, i: nat, now: Timestamp)
    requires id in p.cache.data && id in p.store.data
    requires p.cache.data[id].brokerId.Some? && LastWithId(p.book, i, p.cache.data[id].brokerId.value)
    ensures var (after, r) := AfterRefresh(p, id, now);
            && id in after.cache.data && r == Ok(Some(after.cache.data[id]))
            && Reads(p.cache.data[id], after.cache.data[id], p.book[i], now)
            && after.book == p.book
            && (forall other | other in p.cache.data && other != id ::
                  other in after.cache.data && after.cache.data[other] == p.cache.data[other])
            && id in after.store.data
            && after.store.data[id].stage == (if Settles(p.book[i].status) then Terminal else p.store.data[id].stage)
            && after.store.data[id].tag == p.store.data[id].tag
            && after.store.data[id].brokerId == p.store.data[id].brokerId
  {
    hide Synced, RowOf, Reads, Upper;
    RowOfIsLast(p.book, i, p.cache.data[id].brokerId.value);
    var order := Synced(p.cache.data[id], p.book[i], now);
    SyncReads(p.cache.data[id], p.book[i], now);
    SettledWhenRead(p.cache.data[id], order, p.book[i], now);
  }

  lemma SettledWhenRead(before: Order, after: Order, row: Row, now: Timestamp)
    requires Reads(before, after, row, now)
    ensures after.status.IsTerminal() <==> Settles(row.status)
  {
    hide Upper, FilledQuantity;
  }

  /** A retried call takes the first row with its stored tag for its own order, in the state that row shows. */
  lemma RetryReadsTheRow(p: Platform, request: OrderRequest, i: nat, now: Timestamp)
    requires request.id !in p.cache.data && request.id in p.store.data
    requires FirstWithTag(p.book, i, p.store.data[request.id].tag)
    ensures var known := KnownOrder(p, request, now);
            && known.Some? && known.value.request == request && known.value.brokerId == Some(p.book[i].orderId)
            && Reads(Order(request, SUBMITTED, Some(p.book[i].orderId), [], None, now, now), known.value, p.book[i],
                     now)
  {
    hide Synced, Reads, FirstRow;
    FirstRowIsFirst(p.book, i, p.store.data[request.id].tag);
    SyncReads(BuildOrder(request, p.book[i].orderId, now), p.book[i], now);
    SyncKeepsIdentity(BuildOrder(request, p.book[i].orderId, now), p.book[i], now);
  }

  lemma SyncKeepsIdentity(order: Order, row: Row, now: Timestamp)
    ensures Synced(order, row, now).request == order.request && Synced(order, row, now).brokerId == order.brokerId
  {}

  /** Hydration gives each stored id the state of the last row with its tag. */
  lemma {:induction false} HydrationReadsTheRow(p: Platform, n: nat, k: nat, i: nat, now: Timestamp)
    requires p.store.Valid() && k < n <= |p.store.keys|
    requires p.store.data[p.store.keys[k]].tag != "" && LastWithTag(p.book, i, p.store.data[p.store.keys[k]].tag)
    ensures var id, row, cache := p.store.keys[k], p.book[i], HydratedCache(p, n, now);
            && id in cache.data
            && cache.data[id].request == OrderRequest(id, row.instrument, row.exchange, row.side, row.quantity)
            && cache.data[id].brokerId == Some(row.orderId)
            && Reads(Order(cache.data[id].request, SUBMITTED, Some(row.orderId), [], None, now, now), cache.data[id],
                     row, now)
  {
    hide Synced, Reads, LastRow;
    if n == k + 1 {
      var id, row := p.store.keys[k], p.book[i];
      LastRowIsLast(p.book, i, p.store.data[id].tag);
      SyncReads(BuildOrder(RequestFrom(id, row), row.orderId, now), row, now);
      SyncKeepsIdentity(BuildOrder(RequestFrom(id, row), row.orderId, now), row, now);
    } else {
      HydrationReadsTheRow(p, n - 1, k, i, now);
    }
  }

  /** A fresh process restores an order only under a stored id with a tag, and only from a row with that tag. */
  lemma {:induction false} OnlyTaggedRowsAreRestored(p: Platform, n: nat, id: OrderId, now: Timestamp)
    requires p.store.Valid() && n <= |p.store.keys| && p.cache == Empty() && id in HydratedCache(p, n, now).data
    ensures id in p.store.data && p.store.data[id].tag != ""
    ensures exists row :: row in p.book && row.tag == Some(p.store.data[id].tag)
  {
    hide Synced, LastRow;
    var last, before := p.store.keys[n - 1], HydratedCache(p, n - 1, now);
    if id in before.data {
      OnlyTaggedRowsAreRestored(p, n - 1, id, now);
    } else {
      LastRowFinds(p.book, p.store.data[last].tag);
    }
  }

  // ----- Placing and cancelling

  /**
   * A call that finds no order persists its attempt before sending and the broker's answer after it: what the store
   * says afterwards is how far the call got.
   */
  lemma PlacingIsPersisted(p: Platform, tagOf: TagScheme, request: OrderRequest, fate: Fate, now: Timestamp)
    requires request.id !in p.cache.data
    requires request.id in p.store.data ==>
               forall row | row in p.book :: row.tag != Some(p.store.data[request.id].tag)
    ensures var (after, r) := AfterPlace(p, tagOf, request, fate, now);
            && request.id in after.store.data
            && after.book == (if fate.Lost? then p.book else p.book + [fate.row])
            && if fate.Answered? then
                 && after.store.data[request.id]
                    == Entry(request.id, tagOf(request.id), Submitted, Some(fate.row.orderId))
                 && r == Ok(Order(request, SUBMITTED, Some(fate.row.orderId), [], None, now, now))
                 && request.id in after.cache.data && r.value == after.cache.data[request.id]
               else
                 && after.store.data[request.id] == Entry(request.id, tagOf(request.id), Attempting, None)
                 && r == Err(ConnectionLost) && after.cache == p.cache
  {
    if request.id in p.store.data {
      FirstRowFinds(p.book, p.store.data[request.id].tag);
    }
    hide FirstRow, Synced;
  }

  lemma {:induction false} CancelledRowSays(book: Book, orderId: string)
    ensures RowOf(CancelledBook(book, orderId), orderId).Some? ==>
              RowOf(CancelledBook(book, orderId), orderId).value.status == "CANCELLED"
  {
    if |book| > 0 && book[|book| - 1].orderId != orderId {
      CancelledRowSays(book[..|book| - 1], orderId);
      assert CancelledBook(book, orderId)[..|book| - 1] == CancelledBook(book[..|book| - 1], orderId);
    }
  }

  lemma {:induction false} UpperCaseStays(s: string)
    requires forall i | 0 <= i < |s| :: !('a' <= s[i] <= 'z')
    ensures Upper(s) == s
  {
    if s != "" {
      UpperCaseStays(s[1..]);
      assert [s[0]] + s[1..] == s;
    }
  }

  /**
   * A cancellation is refused for an unknown, settled or unsent order, and changes nothing when the broker does not
   * take it. Taken, it leaves the order cancelled, in the cache, in the broker's row and settled in the store.
   */
  lemma CancelSettles(p: Platform, id: OrderId, accepted: bool, now: Timestamp)
    requires id in p.cache.data ==> id in p.store.data
    ensures var (after, r) := AfterCancel(p, id, accepted, now);
            if id !in p.cache.data then after == p && r == Err(KeyError)
            else if p.cache.data[id].status in {FILLED, REJECTED, CANCELLED} || p.cache.data[id].brokerId.None?
            then after == p && r == Err(ValueError)
            else if !accepted then after == p && r == Err(ConnectionLost)
            else
              && r == Ok(p.cache.data[id].(status := CANCELLED, updatedAt := now))
              && id in after.cache.data && after.cache.data[id] == r.value
              && id in after.store.data && after.store.data[id].stage == Terminal
              && |after.book| == |p.book|
              && forall i | 0 <= i < |p.book| ::
                   after.book[i] == if p.book[i].orderId == p.cache.data[id].brokerId.value
                                    then p.book[i].(status := "CANCELLED") else p.book[i]
  {}

  /** An accepted cancellation stays: the next refresh of the order still shows it cancelled. */
  lemma CancelledStaysCancelled(p: Platform, id: OrderId, now: Timestamp, later: Timestamp)
    requires AfterCancel(p, id, true, now).1.Ok?
    ensures var (after, r) := AfterRefresh(AfterCancel(p, id, true, now).0, id, later);
            && r.Ok? && r.value.Some? && r.value.value.status == CANCELLED
            && id in after.cache.data && after.cache.data[id] == r.value.value
  {
    hide Synced, RowOf, CancelledBook, Reads, Upper;
    var q := AfterCancel(p, id, true, now).0;
    var b := p.cache.data[id].brokerId.value;
    CancelledRowSays(p.book, b);
    var row := RowOf(q.book, b);
    if row.Some? {
      SyncReads(q.cache.data[id], row.value, later);
      UpperCaseStays("CANCELLED");
      CancelledWhenRead(q.cache.data[id], Synced(q.cache.data[id], row.value, later), row.value, later);
    }
  }

  lemma CancelledWhenRead(before: Order, after: Order, row: Row, now: Timestamp)
    requires Reads(before, after, row, now) && Upper(row.status) == "CANCELLED"
    ensures after.status == CANCELLED
  {
    hide Upper, FilledQuantity;
  }
}
