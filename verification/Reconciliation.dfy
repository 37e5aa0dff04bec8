/** Startup reconciliation, and why it is complete after a restart (execution/reconciliation.py, hydrate). */
module Reconciling {
  import opened Prelude
  import opened OrderedDict
  import opened Models
  import opened OrderStoring
  import opened KiteBroking
  import opened KiteProtocol

  datatype Report = Report(nonTerminalOrders: seq<OrderId>, positionMismatches: set<string>, cashMismatch: bool) {
    predicate IsClean() { nonTerminalOrders == [] && positionMismatches == {} && !cashMismatch }
  }

  function NonTerminalIds(keys: seq<OrderId>, orders: map<OrderId, Order>): seq<OrderId>
    requires forall k | k in keys :: k in orders
  {
    if |keys| == 0 then []
    else
      var before, order := NonTerminalIds(keys[..|keys| - 1], orders), orders[keys[|keys| - 1]];
      if order.status.IsTerminal() then before else before + [order.request.id]
  }

  function QuantityIn(positions: map<string, int>, key: string): int {
    if key in positions then positions[key] else 0
  }

  /** Compare the adapter's orders and the broker's positions and cash with what is expected; a None skips a check. */
  method ReconcileStartupState(adapter: KiteBrokerAdapter, expectedPositions: Option<map<string, int>>,
                               actualPositions: map<string, int>, expectedCash: Option<real>, actualCash: real,
                               cashTolerance: real)
    returns (report: Report)
    requires adapter.Valid()
    ensures report.nonTerminalOrders == NonTerminalIds(adapter.orders.keys, adapter.orders.data)
    ensures report.IsClean() <==>
            && NonTerminalIds(adapter.orders.keys, adapter.orders.data) == []
            && (expectedPositions.Some? ==>
                  forall key: string :: QuantityIn(expectedPositions.value, key) == QuantityIn(actualPositions, key))
            && (expectedCash.Some? ==> Abs(actualCash - expectedCash.value) <= cashTolerance)
  {
    var orders := adapter.orders;
    var nonTerminal: seq<OrderId> := [];
    for i := 0 to |orders.keys|
      invariant nonTerminal == NonTerminalIds(orders.keys[..i], orders.data)
    {
      assert orders.keys[..i + 1][..i] == orders.keys[..i];
      var order := orders.data[orders.keys[i]];
      if !order.status.IsTerminal() {
        nonTerminal := nonTerminal + [order.request.id];
      }
    }
    assert orders.keys[..|orders.keys|] == orders.keys;
    var mismatches: set<string> := {};
    if expectedPositions.Some? {
      var expected := expectedPositions.value;
      mismatches := set key | key in expected.Keys + actualPositions.Keys &&
                              QuantityIn(expected, key) != QuantityIn(actualPositions, key);
      if mismatches == {} {
        forall key: string ensures QuantityIn(expected, key) == QuantityIn(actualPositions, key) {
          assert key !in mismatches;
        }
      } else {
        var key :| key in mismatches;
      }
    }
    var cashIssue := expectedCash.Some? && Abs(actualCash - expectedCash.value) > cashTolerance;
    report := Report(nonTerminal, mismatches, cashIssue);
  }

  lemma {:induction false} NoneNonTerminal(keys: seq<OrderId>, orders: map<OrderId, Order>)
    requires forall k | k in keys :: k in orders
    ensures NonTerminalIds(keys, orders) == [] <==> forall k | k in keys :: orders[k].status.IsTerminal()
  {
    if |keys| > 0 {
      var init, last := keys[..|keys| - 1], keys[|keys| - 1];
      NoneNonTerminal(init, orders);
      assert keys == init + [last];
    }
  }

  // ----- Hydration after a restart

  /** Client ids get non-empty tags, as digests do. */
  ghost predicate NonEmptyTags(tagOf: TagScheme) { forall id: OrderId :: tagOf(id) != "" }

  lemma SameOrderIdSameRow(tagOf: TagScheme, book: Book, owners: map<string, OrderId>, x: Row, y: Row)
    requires BookInv(tagOf, book, owners) && x in book && y in book && x.orderId == y.orderId
    ensures x == y
  {
    hide IsForeign;
    var i, j :| 0 <= i < |book| && 0 <= j < |book| && book[i] == x && book[j] == y;
  }

  /** Recovery takes the first row of a tag and hydration the last: for a client's tag they are the same row. */
  lemma FirstRowIsLastRow(tagOf: TagScheme, s: System, id: OrderId)
    requires Injective(tagOf) && Inv(tagOf, s)
    ensures FirstRow(s.platform.book, tagOf(id)) == LastRow(s.platform.book, tagOf(id))
  {
    hide Injective, IsForeign, FirstRow, LastRow, BookInv, StoreInv, CacheInv, PcInv;
    var book, tag := s.platform.book, tagOf(id);
    FirstRowFinds(book, tag);
    LastRowFinds(book, tag);
    var first, last := FirstRow(book, tag), LastRow(book, tag);
    if first.Some? && last.Some? {
      TaggedRowIsOwned(tagOf, book, s.owners, first.value, id);
      TaggedRowIsOwned(tagOf, book, s.owners, last.value, id);
      SameOrderIdSameRow(tagOf, book, s.owners, first.value, last.value);
    }
  }

  /** The order hydration builds for a stored id. */
  function OrderFromRow(id: OrderId, row: Row, now: Timestamp): Order {
    Synced(BuildOrder(RequestFrom(id, row), row.orderId, now), row, now)
  }

  lemma {:induction false} HydratedCacheIs(p: Platform, n: nat, now: Timestamp)
    requires p.store.Valid() && p.cache == Empty() && n <= |p.store.keys|
    ensures var cache := HydratedCache(p, n, now);
            && (forall id | id in cache.data ::
              id in p.store.keys[..n] && HydratedRow(p.book, p.store.data[id].tag).Some? &&
                  cache.data[id] == OrderFromRow(id, HydratedRow(p.book, p.store.data[id].tag).value, now))
            && (forall id | id in p.store.keys[..n] && HydratedRow(p.book, p.store.data[id].tag).Some? ::
                id in cache.data)
  {
    hide HydratedRow, Synced, BuildOrder, RequestFrom;
    if n > 0 {
      HydratedCacheIs(p, n - 1, now);
      assert p.store.keys[..n] == p.store.keys[..n - 1] + [p.store.keys[n - 1]];
    }
  }

  /** Every order ever sent, and only those, comes back from the book under its client id. */
  ghost predicate ListsExactlyOwnOrders(s: System) {
    && (forall id | id in s.platform.cache.data :: OwnedBy(s.platform.cache.data[id].brokerId, s.owners, id))
    && (forall b | b in s.owners ::
          s.owners[b] in s.platform.cache.data && s.platform.cache.data[s.owners[b]].brokerId == Some(b))
  }

  /** The cached status of each own order is the one its book row shows. */
  ghost predicate ShowsBookStatus(s: System) {
    forall row | row in s.platform.book && row.orderId in s.owners ::
      s.owners[row.orderId] in s.platform.cache.data &&
      ShowsStatus(s.platform.cache.data[s.owners[row.orderId]].status, row.status)
  }

  ghost function Restarted(tagOf: TagScheme, s: System, now: Timestamp): System {
    Next(tagOf, Next(tagOf, s, Crash), Hydrate(now))
  }

  /** An own row is found by its tag and restored under its client id. */
  lemma OwnRowIsRestored(tagOf: TagScheme, s: System, row: Row, now: Timestamp)
    requires Injective(tagOf) && NonEmptyTags(tagOf) && Inv(tagOf, s) && s.platform.cache == Empty()
    requires row in s.platform.book && row.orderId in s.owners
    ensures var id, cache := s.owners[row.orderId], AfterHydrate(s.platform, now).cache;
            id in cache.data && cache.data[id] == OrderFromRow(id, row, now)
  {
    hide Injective, IsForeign, HydratedCache, LastRow, OrderFromRow, CacheInv, PcInv;
    var p, id := s.platform, s.owners[row.orderId];
    var tag := p.store.data[id].tag;
    LastRowFinds(p.book, tag);
    TaggedRowIsOwned(tagOf, p.book, s.owners, LastRow(p.book, tag).value, id);
    SameOrderIdSameRow(tagOf, p.book, s.owners, row, LastRow(p.book, tag).value);
    HydratedCacheIs(p, |p.store.keys|, now);
    assert p.store.keys[..|p.store.keys|] == p.store.keys;
  }

  lemma RestoredStatus(id: OrderId, row: Row, now: Timestamp)
    ensures ShowsStatus(OrderFromRow(id, row, now).status, row.status)
    ensures OrderFromRow(id, row, now).brokerId == Some(row.orderId)
  {
    hide StatusOf, ShowsStatus;
    StatusIsShown(row.status);
  }

  /**
   * The persisted state covers the book: after a crash at any point of any run, a fresh adapter that hydrates
   * lists exactly the orders this platform ever sent, with the status the book shows.
   */
  lemma RestartListsExactlyOwnOrders(tagOf: TagScheme, events: seq<Event>, now: Timestamp)
    requires Injective(tagOf) && NonEmptyTags(tagOf)
    ensures var s := Restarted(tagOf, Run(tagOf, events), now);
            Inv(tagOf, s) && ListsExactlyOwnOrders(s) && ShowsBookStatus(s)
  {
    hide Injective, NonEmptyTags, IsForeign, Run, HydratedCache, OrderFromRow, ShowsStatus;
    RunKeepsInv(tagOf, events);
    var crashed := Next(tagOf, Run(tagOf, events), Crash);
    NextKeepsInv(tagOf, Run(tagOf, events), Crash);
    NextKeepsInv(tagOf, crashed, Hydrate(now));
    var s := Restarted(tagOf, Run(tagOf, events), now);
    forall row | row in s.platform.book && row.orderId in s.owners
      ensures s.owners[row.orderId] in s.platform.cache.data
      ensures ShowsStatus(s.platform.cache.data[s.owners[row.orderId]].status, row.status)
      ensures s.platform.cache.data[s.owners[row.orderId]].brokerId == Some(row.orderId)
    {
      OwnRowIsRestored(tagOf, crashed, row, now);
      RestoredStatus(s.owners[row.orderId], row, now);
    }
  }

  lemma RowOfOwner(tagOf: TagScheme, s: System, b: string) returns (row: Row)
    requires Inv(tagOf, s) && b in s.owners
    ensures row in s.platform.book && row.orderId == b
  {
    hide IsForeign, HasTag, StoreInv, CacheInv, PcInv, OneOrderPerClient;
    row :| row in s.platform.book && row.orderId == b;
  }

  lemma ShownStatusSettles(status: OrderStatus, word: string)
    requires ShowsStatus(status, word)
    ensures status.IsTerminal() <==> Settles(word)
  {}

  /** ... so the startup report shows no unsettled order exactly when no order this platform sent is still open. */
  lemma RestartReportIsComplete(tagOf: TagScheme, events: seq<Event>, now: Timestamp)
    requires Injective(tagOf) && NonEmptyTags(tagOf)
    ensures var s := Restarted(tagOf, Run(tagOf, events), now);
            && s.platform.cache.Valid()
            && (NonTerminalIds(s.platform.cache.keys, s.platform.cache.data) == [] <==>
                  forall row | row in s.platform.book && row.orderId in s.owners ::
                    Settles(row.status))
  {
    hide Injective, NonEmptyTags, IsForeign, Restarted, StoreInv, PcInv, ShowsStatus, Settles, OneOrderPerClient,
         BookInv;
    RestartListsExactlyOwnOrders(tagOf, events, now);
    var s := Restarted(tagOf, Run(tagOf, events), now);
    hide Run;
    var cache := s.platform.cache;
    NoneNonTerminal(cache.keys, cache.data);
    forall id | id in cache.data
      ensures exists row ::
                row in s.platform.book && row.orderId in s.owners &&
                (cache.data[id].status.IsTerminal() <==> Settles(row.status))
    {
      var row := RowOfOwner(tagOf, s, cache.data[id].brokerId.value);
      ShownStatusSettles(cache.data[id].status, row.status);
    }
    forall row | row in s.platform.book && row.orderId in s.owners
      ensures cache.data[s.owners[row.orderId]].status.IsTerminal() <==> Settles(row.status)
    {
      ShownStatusSettles(cache.data[s.owners[row.orderId]].status, row.status);
    }
  }
}
