/**
 * The order protocol under crashes: a call persists its attempt, sends, persists the answer and caches the order,
 * and the process can die between any two of these steps.
 */
module KiteProtocol {
  import opened Prelude
  import opened OrderedDict
  import opened Models
  import opened OrderStoring
  import opened KiteBroking

  // ----- The steps

  /** Where a place_order call has got to. */
  datatype Pc =
    | Idle
    | Sending(request: OrderRequest)
    | Acknowledged(request: OrderRequest, brokerId: string)
    | Recorded(request: OrderRequest, brokerId: string)

  /**
   * owners is the broker's own record of which client id each platform order was sent for; the program never sees it.
   */
  datatype System = System(platform: Platform, pc: Pc, owners: map<string, OrderId>)

  datatype Event =
    | Call(request: OrderRequest, now: Timestamp)
    | Send(fate: Fate)
    | Mark
    | Finish(now: Timestamp)
    | Crash
    | Hydrate(now: Timestamp)
    | Refresh(id: OrderId, now: Timestamp)
    | Cancel(id: OrderId, accepted: bool, now: Timestamp)
    | BrokerUpdate(index: nat, row: Row)
    | ManualOrder(row: Row)

  const BOOT: System := System(Platform([], Empty(), Empty()), Idle, map[])

  predicate Unused(book: Book, orderId: string) { forall row | row in book :: row.orderId != orderId }

  /** A tag that no client id has. */
  ghost predicate IsForeign(tagOf: TagScheme, tag: Option<string>) {
    forall id: OrderId :: tag != Some(tagOf(id))
  }

  ghost predicate CanReceive(tagOf: TagScheme, s: System, fate: Fate)
    requires s.pc.Sending?
  {
    fate.Lost? || (Records(fate.row, s.pc.request, tagOf(s.pc.request.id)) && Unused(s.platform.book, fate.row.orderId))
  }

  ghost function AfterSend(tagOf: TagScheme, s: System, fate: Fate): System
    requires s.pc.Sending?
  {
    if !CanReceive(tagOf, s, fate) then s
    else
      var platform := s.platform.(book := BookAfter(s.platform.book, fate));
      match fate
      case Lost => s.(pc := Idle)
      case Unanswered(row) => System(platform, Idle, s.owners[row.orderId := s.pc.request.id])
      case Answered(row) => System(platform, Acknowledged(s.pc.request, row.orderId),
          s.owners[row.orderId := s.pc.request.id])
  }

  ghost function AfterCall(tagOf: TagScheme, s: System, request: OrderRequest, now: Timestamp): System {
    var known := KnownOrder(s.platform, request, now);
    if known.Some? then s.(platform := Remembered(s.platform, request.id, known.value))
    else System(s.platform.(store := AfterBegin(s.platform.store, tagOf, request.id)), Sending(request), s.owners)
  }

  /** One step; an event that cannot happen in a state changes nothing. */
  ghost function Next(tagOf: TagScheme, s: System, e: Event): System {
    match e
    case Call(request, now) => if s.pc.Idle? then AfterCall(tagOf, s, request, now) else s
    case Send(fate) => if s.pc.Sending? then AfterSend(tagOf, s, fate) else s
    case Mark =>
      if s.pc.Acknowledged? && AfterSubmitted(s.platform.store, s.pc.request.id, s.pc.brokerId).Ok? then
        System(s.platform.(store := AfterSubmitted(s.platform.store, s.pc.request.id, s.pc.brokerId).value),
               Recorded(s.pc.request, s.pc.brokerId), s.owners)
      else s
    case Finish(now) =>
      if s.pc.Recorded? then
        System(Remembered(s.platform, s.pc.request.id, BuildOrder(s.pc.request, s.pc.brokerId, now)), Idle, s.owners)
      else s
    case Crash => System(s.platform.(cache := Empty()), Idle, s.owners)
    case Hydrate(now) => if s.pc.Idle? && s.platform.store.Valid() then s.(platform := AfterHydrate(s.platform, now))
        else s
    case Refresh(id, now) => if s.pc.Idle? then s.(platform := AfterRefresh(s.platform, id, now).0) else s
    case Cancel(id, accepted, now) => if s.pc.Idle? then s.(platform := AfterCancel(s.platform, id, accepted, now).0)
        else s
    case BrokerUpdate(i, row) =>
      if i < |s.platform.book| && row.orderId == s.platform.book[i].orderId && row.tag == s.platform.book[i].tag
      then s.(platform := s.platform.(book := s.platform.book[i := row])) else s
    case ManualOrder(row) =>
      if IsForeign(tagOf, row.tag) && Unused(s.platform.book, row.orderId)
      then s.(platform := s.platform.(book := s.platform.book + [row])) else s
  }

  ghost function Run(tagOf: TagScheme, events: seq<Event>): System {
    if |events| == 0 then BOOT else Next(tagOf, Run(tagOf, events[..|events| - 1]), events[|events| - 1])
  }

  /** What a place_order call that completes on this step returns: the client id and the broker's order id. */
  ghost function Returned(tagOf: TagScheme, s: System, e: Event): Option<(OrderId, Option<string>)> {
    if e.Call? && s.pc.Idle? && KnownOrder(s.platform, e.request, e.now).Some? then
      Some((e.request.id, KnownOrder(s.platform, e.request, e.now).value.brokerId))
    else if e.Finish? && s.pc.Recorded? then Some((s.pc.request.id, Some(s.pc.brokerId)))
    else None
  }

  /** An uninterrupted call of the adapter is exactly these four steps: the state it leaves and what it returns. */
  lemma PlaceIsItsSteps(tagOf: TagScheme, s: System, request: OrderRequest, fate: Fate, now: Timestamp)
    requires s.pc.Idle?
    requires !fate.Lost? ==> Records(fate.row, request, tagOf(request.id)) && Unused(s.platform.book, fate.row.orderId)
    ensures var called := Next(tagOf, s, Call(request, now));
            var marked := Next(tagOf, Next(tagOf, called, Send(fate)), Mark);
            var finished := Next(tagOf, marked, Finish(now));
            var known, sent := Returned(tagOf, s, Call(request, now)), Returned(tagOf, marked, Finish(now));
            var (platform, result) := AfterPlace(s.platform, tagOf, request, fate, now);
            && finished.pc.Idle? && finished.platform == platform
            && (result.Ok? ==> (if known.Some? then known else sent) == Some((request.id, result.value.brokerId)))
            && (result.Err? ==> known.None? && sent.None? && result.error == ConnectionLost)
  {
    hide KnownOrder, Records, Unused;
  }

  // ----- The invariant

  ghost predicate Injective(tagOf: TagScheme) {
    forall a: OrderId, b: OrderId :: tagOf(a) == tagOf(b) ==> a == b
  }

  /** Order ids are unique; platform rows carry their owner's tag, all other rows a foreign one. */
  ghost predicate BookInv(tagOf: TagScheme, book: Book, owners: map<string, OrderId>) {
    && (forall i, j :: 0 <= i < j < |book| ==> book[i].orderId != book[j].orderId)
    && (forall row | row in book ::
          if row.orderId in owners then HasTag(row, tagOf(owners[row.orderId])) else IsForeign(tagOf, row.tag))
    && (forall b | b in owners :: exists row :: row in book && row.orderId == b)
  }

  /** At most one order was ever sent for a client id. */
  ghost predicate OneOrderPerClient(owners: map<string, OrderId>) {
    forall b, b' | b in owners && b' in owners && owners[b] == owners[b'] :: b == b'
  }

  /** Entries carry their id's tag, and every platform order has one. */
  ghost predicate StoreInv(tagOf: TagScheme, store: Entries, owners: map<string, OrderId>) {
    && store.Valid()
    && (forall id | id in store.data :: store.data[id].tag == tagOf(id))
    && (forall b | b in owners :: owners[b] in store.data)
  }

  predicate OwnedBy(brokerId: Option<string>, owners: map<string, OrderId>, id: OrderId) {
    brokerId.Some? && brokerId.value in owners && owners[brokerId.value] == id
  }

  /** Cached orders are platform orders under their own broker id. */
  ghost predicate CacheInv(cache: Dict<OrderId, Order>, owners: map<string, OrderId>) {
    cache.Valid() && forall id | id in cache.data :: OwnedBy(cache.data[id].brokerId, owners, id)
  }

  /** While sending, the attempt is persisted and nothing has been sent for that id; afterwards it owns its order. */
  ghost predicate PcInv(pc: Pc, store: Entries, owners: map<string, OrderId>) {
    match pc
    case Idle => true
    case Sending(request) => request.id in store.data && forall b | b in owners :: owners[b] != request.id
    case Acknowledged(request, b) => b in owners && owners[b] == request.id
    case Recorded(request, b) => b in owners && owners[b] == request.id
  }

  ghost predicate Inv(tagOf: TagScheme, s: System) {
    && BookInv(tagOf, s.platform.book, s.owners)
    && OneOrderPerClient(s.owners)
    && StoreInv(tagOf, s.platform.store, s.owners)
    && CacheInv(s.platform.cache, s.owners)
    && PcInv(s.pc, s.platform.store, s.owners)
  }

  /** A row with a client's tag is that client's own order. */
  lemma TaggedRowIsOwned(tagOf: TagScheme, book: Book, owners: map<string, OrderId>, row: Row, id: OrderId)
    requires Injective(tagOf) && BookInv(tagOf, book, owners) && row in book && HasTag(row, tagOf(id))
    ensures OwnedBy(Some(row.orderId), owners, id)
  {}

  /** No row with a client's tag: nothing was ever sent for it. */
  lemma UntaggedIsUnsent(tagOf: TagScheme, book: Book, owners: map<string, OrderId>, id: OrderId)
    requires BookInv(tagOf, book, owners) && forall row | row in book :: !HasTag(row, tagOf(id))
    ensures forall b | b in owners :: owners[b] != id
  {
    hide IsForeign;
    forall b | b in owners ensures owners[b] != id {
      var row :| row in book && row.orderId == b;
      assert HasTag(row, tagOf(owners[b]));
    }
  }

  /** A call that finds an order finds its own; a call that finds none has sent none. */
  lemma KnownOrderIsOwn(tagOf: TagScheme, s: System, request: OrderRequest, now: Timestamp)
    requires Injective(tagOf) && Inv(tagOf, s)
    ensures var known := KnownOrder(s.platform, request, now);
            if known.Some? then OwnedBy(known.value.brokerId, s.owners, request.id)
            else forall b | b in s.owners :: s.owners[b] != request.id
  {
    hide Injective, IsForeign, BookInv;
    var p := s.platform;
    if request.id !in p.cache.data && request.id in p.store.data {
      var tag := p.store.data[request.id].tag;
      FirstRowFinds(p.book, tag);
      var found := FirstRow(p.book, tag);
      if found.Some? {
        TaggedRowIsOwned(tagOf, p.book, s.owners, found.value, request.id);
      } else {
        UntaggedIsUnsent(tagOf, p.book, s.owners, request.id);
      }
    }
  }

  lemma CallKeepsInv(tagOf: TagScheme, s: System, request: OrderRequest, now: Timestamp)
    requires Injective(tagOf) && Inv(tagOf, s) && s.pc.Idle?
    ensures Inv(tagOf, AfterCall(tagOf, s, request, now))
  {
    hide BookInv, OneOrderPerClient, Injective, KnownOrder;
    KnownOrderIsOwn(tagOf, s, request, now);
  }

  /** A new row under an unused order id, carrying its client's tag. */
  lemma NewRowKeepsBook(tagOf: TagScheme, book: Book, owners: map<string, OrderId>, row: Row, id: OrderId)
    requires BookInv(tagOf, book, owners) && HasTag(row, tagOf(id)) && Unused(book, row.orderId)
    ensures row.orderId !in owners
    ensures BookInv(tagOf, book + [row], owners[row.orderId := id])
  {
    hide IsForeign;
    var after, owned := book + [row], owners[row.orderId := id];
    assert row.orderId !in owners;
    forall b | b in owned ensures exists r :: r in after && r.orderId == b {
      if b == row.orderId {
        assert row in after;
      } else {
        var r :| r in book && r.orderId == b;
        assert r in after;
      }
    }
  }

  lemma NewOwnerKeepsRest(tagOf: TagScheme, store: Entries, cache: Dict<OrderId, Order>, owners: map<string, OrderId>,
                          b: string, id: OrderId)
    requires OneOrderPerClient(owners) && StoreInv(tagOf, store, owners) && CacheInv(cache, owners) && b !in owners
    requires id in store.data && forall other | other in owners :: owners[other] != id
    ensures var owned := owners[b := id];
            OneOrderPerClient(owned) && StoreInv(tagOf, store, owned) && CacheInv(cache, owned)
  {
    hide Dict.Valid;
  }

  lemma NewOrderKeepsInv(tagOf: TagScheme, s: System, row: Row, pc: Pc)
    requires Inv(tagOf, s) && s.pc.Sending?
    requires Records(row, s.pc.request, tagOf(s.pc.request.id)) && Unused(s.platform.book, row.orderId)
    requires pc.Idle? || pc == Acknowledged(s.pc.request, row.orderId)
    ensures Inv(tagOf, System(s.platform.(book := s.platform.book + [row]), pc,
            s.owners[row.orderId := s.pc.request.id]))
  {
    hide BookInv, OneOrderPerClient, StoreInv, CacheInv, Unused;
    NewRowKeepsBook(tagOf, s.platform.book, s.owners, row, s.pc.request.id);
    NewOwnerKeepsRest(tagOf, s.platform.store, s.platform.cache, s.owners, row.orderId, s.pc.request.id);
  }

  lemma SendKeepsInv(tagOf: TagScheme, s: System, fate: Fate)
    requires Inv(tagOf, s) && s.pc.Sending?
    ensures Inv(tagOf, AfterSend(tagOf, s, fate))
  {
    hide BookInv, StoreInv, CacheInv, OneOrderPerClient, Records, Unused;
    if CanReceive(tagOf, s, fate) && !fate.Lost? {
      NewOrderKeepsInv(tagOf, s, fate.row, if fate.Answered? then Acknowledged(s.pc.request, fate.row.orderId)
          else Idle);
    }
  }

  /** Rows that keep their identity keep the book's invariant. */
  lemma SameIdentitiesKeepBook(tagOf: TagScheme, book: Book, after: Book, owners: map<string, OrderId>)
    requires BookInv(tagOf, book, owners) && |after| == |book|
    requires forall i :: 0 <= i < |book| ==> after[i].orderId == book[i].orderId && after[i].tag == book[i].tag
    ensures BookInv(tagOf, after, owners)
  {
    hide IsForeign;
    forall row | row in after
      ensures if row.orderId in owners then HasTag(row, tagOf(owners[row.orderId])) else IsForeign(tagOf, row.tag)
    {
      var i :| 0 <= i < |after| && after[i] == row;
      assert book[i] in book;
    }
    forall b | b in owners ensures exists row :: row in after && row.orderId == b {
      var row :| row in book && row.orderId == b;
      var i :| 0 <= i < |book| && book[i] == row;
      assert after[i] in after;
    }
  }

  lemma ManualOrderKeepsBook(tagOf: TagScheme, book: Book, row: Row, owners: map<string, OrderId>)
    requires BookInv(tagOf, book, owners) && IsForeign(tagOf, row.tag) && Unused(book, row.orderId)
    ensures BookInv(tagOf, book + [row], owners)
  {
    hide IsForeign;
    forall b | b in owners ensures exists r :: r in book + [row] && r.orderId == b {
      var r :| r in book && r.orderId == b;
      assert r in book + [row];
    }
    assert row.orderId !in owners;
  }

  lemma PutKeepsCache(cache: Dict<OrderId, Order>, owners: map<string, OrderId>, id: OrderId, order: Order)
    requires CacheInv(cache, owners) && OwnedBy(order.brokerId, owners, id)
    ensures CacheInv(cache.Put(id, order), owners)
  {}

  lemma SyncedKeepsBroker(order: Order, row: Row, now: Timestamp)
    ensures Synced(order, row, now).brokerId == order.brokerId
  {}

  lemma {:induction false} HydrationCachesOwnOrders(tagOf: TagScheme, s: System, n: nat, now: Timestamp)
    requires Injective(tagOf) && Inv(tagOf, s) && n <= |s.platform.store.keys|
    ensures CacheInv(HydratedCache(s.platform, n, now), s.owners)
  {
    hide BookInv, OneOrderPerClient, Injective, Dict.Put;
    if n > 0 {
      HydrationCachesOwnOrders(tagOf, s, n - 1, now);
      var id := s.platform.store.keys[n - 1];
      var tag := s.platform.store.data[id].tag;
      LastRowFinds(s.platform.book, tag);
      if HydratedRow(s.platform.book, tag).Some? {
        var row := HydratedRow(s.platform.book, tag).value;
        var built := BuildOrder(RequestFrom(id, row), row.orderId, now);
        TaggedRowIsOwned(tagOf, s.platform.book, s.owners, row, id);
        SyncedKeepsBroker(built, row, now);
        hide CacheInv, Synced;
        PutKeepsCache(HydratedCache(s.platform, n - 1, now), s.owners, id, Synced(built, row, now));
      }
    }
  }

  lemma TerminalKeepsStore(tagOf: TagScheme, store: Entries, owners: map<string, OrderId>, id: OrderId)
    requires StoreInv(tagOf, store, owners) && AfterTerminal(store, id).Ok?
    ensures StoreInv(tagOf, AfterTerminal(store, id).value, owners)
  {}

  lemma RefreshKeepsInv(tagOf: TagScheme, s: System, id: OrderId, now: Timestamp)
    requires Inv(tagOf, s) && s.pc.Idle?
    ensures Inv(tagOf, s.(platform := AfterRefresh(s.platform, id, now).0))
  {
    hide RowOf, BookInv, StoreInv, Synced, AfterTerminal, OneOrderPerClient;
    var p := s.platform;
    if id in p.cache.data {
      var order := p.cache.data[id];
      var row := RowOf(p.book, order.brokerId.value);
      if row.Some? {
        SyncedKeepsBroker(order, row.value, now);
        hide CacheInv;
        PutKeepsCache(p.cache, s.owners, id, Synced(order, row.value, now));
        if AfterTerminal(p.store, id).Ok? {
          TerminalKeepsStore(tagOf, p.store, s.owners, id);
        }
      }
    }
  }

  lemma CancelKeepsInv(tagOf: TagScheme, s: System, id: OrderId, accepted: bool, now: Timestamp)
    requires Inv(tagOf, s) && s.pc.Idle?
    ensures Inv(tagOf, s.(platform := AfterCancel(s.platform, id, accepted, now).0))
  {
    hide BookInv, StoreInv, AfterTerminal, OneOrderPerClient;
    var p := s.platform;
    if id in p.cache.data {
      var order := p.cache.data[id];
      SameIdentitiesKeepBook(tagOf, p.book, CancelledBook(p.book, order.brokerId.value), s.owners);
      hide CancelledBook, CacheInv;
      PutKeepsCache(p.cache, s.owners, id, order.(status := CANCELLED, updatedAt := now));
      if AfterTerminal(p.store, id).Ok? {
        TerminalKeepsStore(tagOf, p.store, s.owners, id);
      }
    }
  }

  lemma NextKeepsInv(tagOf: TagScheme, s: System, e: Event)
    requires Injective(tagOf) && Inv(tagOf, s)
    ensures Inv(tagOf, Next(tagOf, s, e))
  {
    hide IsForeign, Injective, AfterCall, AfterSend, AfterRefresh, AfterCancel, HydratedCache, BookInv, Unused;
    match e
    case Call(request, now) => if s.pc.Idle? { CallKeepsInv(tagOf, s, request, now); }
    case Send(fate) => if s.pc.Sending? { SendKeepsInv(tagOf, s, fate); }
    case Mark =>
    case Finish(_) =>
    case Crash =>
    case Hydrate(now) => if s.pc.Idle? { HydrationCachesOwnOrders(tagOf, s, |s.platform.store.keys|, now); }
    case Refresh(id, now) => if s.pc.Idle? { RefreshKeepsInv(tagOf, s, id, now); }
    case Cancel(id, accepted, now) => if s.pc.Idle? { CancelKeepsInv(tagOf, s, id, accepted, now); }
    case BrokerUpdate(i, row) =>
      if i < |s.platform.book| && row.orderId == s.platform.book[i].orderId && row.tag == s.platform.book[i].tag {
        SameIdentitiesKeepBook(tagOf, s.platform.book, s.platform.book[i := row], s.owners);
      }
    case ManualOrder(row) =>
      if IsForeign(tagOf, row.tag) && Unused(s.platform.book, row.orderId) {
        ManualOrderKeepsBook(tagOf, s.platform.book, row, s.owners);
      }
  }

  lemma {:induction false} RunKeepsInv(tagOf: TagScheme, events: seq<Event>)
    requires Injective(tagOf)
    ensures Inv(tagOf, Run(tagOf, events))
  {
    hide Next, Injective;
    if |events| == 0 {
      hide IsForeign;
    } else {
      RunKeepsInv(tagOf, events[..|events| - 1]);
      NextKeepsInv(tagOf, Run(tagOf, events[..|events| - 1]), events[|events| - 1]);
    }
  }

  // ----- At most once

  /** Over every run with crashes between any two steps, the book holds at most one order per client id. */
  lemma AtMostOneOrderPerClient(tagOf: TagScheme, events: seq<Event>, id: OrderId, i: nat, j: nat)
    requires Injective(tagOf)
    requires var book := Run(tagOf, events).platform.book;
             i < |book| && j < |book| && HasTag(book[i], tagOf(id)) && HasTag(book[j], tagOf(id))
    ensures i == j
  {
    hide Run, Injective, IsForeign;
    RunKeepsInv(tagOf, events);
    var s := Run(tagOf, events);
    TaggedRowIsOwned(tagOf, s.platform.book, s.owners, s.platform.book[i], id);
    TaggedRowIsOwned(tagOf, s.platform.book, s.owners, s.platform.book[j], id);
  }

  /** The returned broker id is a book row that was sent for the returned client id. */
  ghost predicate ReturnsOwnOrder(tagOf: TagScheme, s: System, e: Event) {
    var r := Returned(tagOf, s, e);
    r.Some? ==> OwnedBy(r.value.1, s.owners, r.value.0)
  }

  lemma CallsReturnOwnOrders(tagOf: TagScheme, events: seq<Event>, e: Event)
    requires Injective(tagOf)
    ensures ReturnsOwnOrder(tagOf, Run(tagOf, events), e)
  {
    hide Run, Injective, IsForeign, KnownOrder, BookInv;
    RunKeepsInv(tagOf, events);
    if e.Call? {
      KnownOrderIsOwn(tagOf, Run(tagOf, events), e.request, e.now);
    }
  }

  lemma RunExtends(tagOf: TagScheme, events: seq<Event>, e: Event)
    ensures Run(tagOf, events + [e]) == Next(tagOf, Run(tagOf, events), e)
  {
    assert (events + [e])[..|events|] == events;
  }

  /** A first client's order reaches the book, and the process dies before the answer is persisted. */
  lemma FirstClientCrashes(tagOf: TagScheme, request: OrderRequest, row: Row, now: Timestamp)
    returns (events: seq<Event>)
    requires Records(row, request, tagOf(request.id))
    ensures Run(tagOf, events)
         == System(Platform([row], AfterBegin(Empty(), tagOf, request.id), Empty()), Idle,
             map[row.orderId := request.id])
  {
    hide Records, AfterBegin;
    var e1 := [Call(request, now)];
    RunExtends(tagOf, [], Call(request, now));
    assert [] + e1 == e1;
    var s1 := System(Platform([], AfterBegin(Empty(), tagOf, request.id), Empty()), Sending(request), map[]);
    assert Run(tagOf, e1) == s1;
    RunExtends(tagOf, e1, Send(Answered(row)));
    assert Unused([], row.orderId) && [] + [row] == [row];
    assert Next(tagOf, s1, Send(Answered(row))).platform.book == [row];
    RunExtends(tagOf, e1 + [Send(Answered(row))], Crash);
    events := e1 + [Send(Answered(row))] + [Crash];
  }

  /** A second client persists its attempt and crashes before sending. */
  lemma SecondClientCrashes(tagOf: TagScheme, book: Book, store: Entries, owners: map<string, OrderId>,
                            request: OrderRequest, now: Timestamp)
    requires request.id !in store.data
    ensures Next(tagOf, Next(tagOf, System(Platform(book, store, Empty()), Idle, owners), Call(request, now)), Crash)
         == System(Platform(book, AfterBegin(store, tagOf, request.id), Empty()), Idle, owners)
  {
    hide AfterBegin;
  }

  /** A retry finds the first row with its tag, whoever it belongs to. */
  lemma RetryTakesTheTaggedRow(tagOf: TagScheme, row: Row, store: Entries, owners: map<string, OrderId>,
                               request: OrderRequest, now: Timestamp)
    requires request.id in store.data && HasTag(row, store.data[request.id].tag)
    ensures Returned(tagOf, System(Platform([row], store, Empty()), Idle, owners), Call(request, now))
         == Some((request.id, Some(row.orderId)))
  {
    hide StatusOf;
  }

  // ----- A fill that goes stale

  const NEW_YEAR: Timestamp := Timestamp(0, Date(2024, 1, 1))

  function OpenRow(tag: string, filled: nat, price: Option<real>): Row
    requires price.Some? ==> price.value >= 0.0
  {
    BookRow("1", Some(tag), "OPEN", None, filled, price, "ABC", "NSE", BUY, 2, NEW_YEAR)
  }

  /** One step of a run whose state is known. */
  lemma Step(tagOf: TagScheme, events: seq<Event>, s: System, e: Event, after: System)
    requires Run(tagOf, events) == s && Next(tagOf, s, e) == after
    ensures Run(tagOf, events + [e]) == after
  {
    hide Next, Run;
    RunExtends(tagOf, events, e);
  }

  function OneOrder(row: Row, store: Entries, id: OrderId, order: Order): System {
    System(Platform([row], store, Empty().Put(id, order)), Idle, map["1" := id])
  }

  /** A call for two shares goes out and is answered. */
  lemma CallGoesOut(tagOf: TagScheme, request: OrderRequest, row: Row)
    requires Records(row, request, tagOf(request.id)) && row.orderId == "1"
    ensures var begun := AfterBegin(Empty(), tagOf, request.id);
            var sending := System(Platform([], begun, Empty()), Sending(request), map[]);
            && Next(tagOf, BOOT, Call(request, NEW_YEAR)) == sending
            && Next(tagOf, sending, Send(Answered(row)))
            == System(Platform([row], begun, Empty()), Acknowledged(request, "1"), map["1" := request.id])
  {
    hide AfterBegin, Records;
    assert [] + [row] == [row];
  }

  lemma AnswerIsRecorded(tagOf: TagScheme, request: OrderRequest, row: Row, begun: Entries)
    requires request.id in begun.data
    ensures var store := AfterSubmitted(begun, request.id, "1").value;
            var recorded := System(Platform([row], store, Empty()), Recorded(request, "1"), map["1" := request.id]);
            && Next(tagOf, System(Platform([row], begun, Empty()), Acknowledged(request, "1"), map["1" := request.id]),
                Mark) == recorded
            && Next(tagOf, recorded, Finish(NEW_YEAR)) == OneOrder(row, store, request.id,
                BuildOrder(request, "1", NEW_YEAR))
  {}

  /** The run of a call for two shares until it has returned. */
  lemma PlacedOrder(tagOf: TagScheme, id: OrderId) returns (events: seq<Event>, store: Entries)
    ensures var request := OrderRequest(id, "ABC", "NSE", BUY, 2);
            Run(tagOf, events) == OneOrder(OpenRow(tagOf(id), 0, None), store, id, BuildOrder(request, "1", NEW_YEAR))
  {
    var request, row := OrderRequest(id, "ABC", "NSE", BUY, 2), OpenRow(tagOf(id), 0, None);
    assert Records(row, request, tagOf(id)) && row.orderId == "1" && Run(tagOf, []) == BOOT;
    hide AfterBegin, Next, Run, OneOrder, Records;
    var begun := AfterBegin(Empty(), tagOf, id);
    CallGoesOut(tagOf, request, row);
    BegunIsStored(tagOf, id);
    AnswerIsRecorded(tagOf, request, row, begun);
    store := AfterSubmitted(begun, id, "1").value;
    var sending := System(Platform([], begun, Empty()), Sending(request), map[]);
    var answered := System(Platform([row], begun, Empty()), Acknowledged(request, "1"), map["1" := id]);
    var recorded := System(Platform([row], store, Empty()), Recorded(request, "1"), map["1" := id]);
    var e1 := [] + [Call(request, NEW_YEAR)];
    Step(tagOf, [], BOOT, Call(request, NEW_YEAR), sending);
    Step(tagOf, e1, sending, Send(Answered(row)), answered);
    Step(tagOf, e1 + [Send(Answered(row))], answered, Mark, recorded);
    Step(tagOf, e1 + [Send(Answered(row))] + [Mark], recorded, Finish(NEW_YEAR),
         OneOrder(row, store, id, BuildOrder(request, "1", NEW_YEAR)));
    events := e1 + [Send(Answered(row))] + [Mark] + [Finish(NEW_YEAR)];
  }

  lemma BegunIsStored(tagOf: TagScheme, id: OrderId)
    ensures id in AfterBegin(Empty(), tagOf, id).data
  {}

  lemma RowChanges(tagOf: TagScheme, store: Entries, id: OrderId, order: Order, before: Row, row: Row)
    requires row.orderId == before.orderId && row.tag == before.tag
    ensures Next(tagOf, OneOrder(before, store, id, order), BrokerUpdate(0, row)) == OneOrder(row, store, id, order)
  {
    assert [before][0 := row] == [row];
  }

  lemma RefreshReads(tagOf: TagScheme, store: Entries, id: OrderId, order: Order, row: Row)
    requires order.brokerId == Some("1") && row.orderId == "1" && !StatusOf(row.status).IsTerminal()
    ensures Next(tagOf, OneOrder(row, store, id, order), Refresh(id, NEW_YEAR))
         == OneOrder(row, store, id, Synced(order, row, NEW_YEAR))
  {
    hide StatusOf;
    assert RowOf([row], "1") == Some(row);
    var synced := Synced(order, row, NEW_YEAR);
    assert map[id := order][id := synced] == map[id := synced];
  }

  /** The broker's row changes and the platform re-reads it: only the cached order's state moves. */
  lemma UpdateAndRefresh(tagOf: TagScheme, events: seq<Event>, store: Entries, id: OrderId, order: Order, before: Row,
                         row: Row)
    requires Run(tagOf, events) == OneOrder(before, store, id, order)
    requires order.brokerId == Some("1") && row.orderId == before.orderId == "1" && row.tag == before.tag
    requires !StatusOf(row.status).IsTerminal()
    ensures Run(tagOf, events + [BrokerUpdate(0, row)] + [Refresh(id, NEW_YEAR)])
         == OneOrder(row, store, id, Synced(order, row, NEW_YEAR))
  {
    hide StatusOf, Next, Run, OneOrder, Synced;
    RowChanges(tagOf, store, id, order, before, row);
    Step(tagOf, events, OneOrder(before, store, id, order), BrokerUpdate(0, row), OneOrder(row, store, id, order));
    RefreshReads(tagOf, store, id, order, row);
    Step(tagOf, events + [BrokerUpdate(0, row)], OneOrder(row, store, id, order), Refresh(id, NEW_YEAR),
         OneOrder(row, store, id, Synced(order, row, NEW_YEAR)));
  }

  /**
   * A run with two refreshes: the first reads a fill of one share, the second a row that says two shares are filled
   * and names no price. The platform still records one.
   */
  lemma StaleFillSurvives(tagOf: TagScheme, id: OrderId) returns (events: seq<Event>, order: Order)
    ensures var s := Run(tagOf, events);
            && s.pc.Idle? && s.platform.book == [OpenRow(tagOf(id), 2, None)]
            && s.platform.cache.keys == [id] && s.platform.cache.data == map[id := order]
            && order.brokerId == Some("1") && FilledQuantity(order.fills) == 1
  {
    hide Run, StatusOf, Synced, FilledQuantity;
    var tag, request := tagOf(id), OrderRequest(id, "ABC", "NSE", BUY, 2);
    var placed, store := PlacedOrder(tagOf, id);
    var first, second := OpenRow(tag, 1, Some(100.0)), OpenRow(tag, 2, None);
    var built := BuildOrder(request, "1", NEW_YEAR);
    var filled := Synced(built, first, NEW_YEAR);
    order := Synced(filled, second, NEW_YEAR);
    OpenIsNotTerminal();
    FirstFillIsRead(request, tag);
    UpdateAndRefresh(tagOf, placed, store, id, built, OpenRow(tag, 0, None), first);
    var once := placed + [BrokerUpdate(0, first)] + [Refresh(id, NEW_YEAR)];
    UpdateAndRefresh(tagOf, once, store, id, filled, first, second);
    events := once + [BrokerUpdate(0, second)] + [Refresh(id, NEW_YEAR)];
  }

  /** The priced fill of one share is recorded, and the unpriced fill of two leaves it as it is. */
  lemma FirstFillIsRead(request: OrderRequest, tag: string)
    ensures var built := BuildOrder(request, "1", NEW_YEAR);
            var filled := Synced(built, OpenRow(tag, 1, Some(100.0)), NEW_YEAR);
            var order := Synced(filled, OpenRow(tag, 2, None), NEW_YEAR);
            filled.brokerId == Some("1") && order.brokerId == Some("1") && FilledQuantity(order.fills) == 1
  {
    hide StatusOf;
    var built := BuildOrder(request, "1", NEW_YEAR);
    ResyncIsExactWhen(built, OpenRow(tag, 1, Some(100.0)), NEW_YEAR);
  }

  lemma OpenIsNotTerminal()
    ensures !StatusOf("OPEN").IsTerminal()
  {
    assert Upper("OPEN")[0] == 'O';
  }

  /** If two client ids share a tag, an interrupted second call recovers the first client's order as its own. */
  lemma CollidingTagsMisattribute(tagOf: TagScheme, a: OrderId, b: OrderId) returns (events: seq<Event>, last: Event)
    requires a != b && tagOf(a) == tagOf(b)
    ensures !ReturnsOwnOrder(tagOf, Run(tagOf, events), last)
  {
    var now := Timestamp(0, Date(2000, 1, 1));
    var forA, forB := OrderRequest(a, "A", "X", BUY, 1), OrderRequest(b, "A", "X", BUY, 1);
    var row: Row := BookRow("1", Some(tagOf(a)), "COMPLETE", None, 0, None, "A", "X", BUY, 1, now);
    var first := FirstClientCrashes(tagOf, forA, row, now);
    var store := AfterBegin(Empty(), tagOf, a);
    events, last := first + [Call(forB, now)] + [Crash], Call(forB, now);
    RunExtends(tagOf, first, Call(forB, now));
    RunExtends(tagOf, first + [Call(forB, now)], Crash);
    SecondClientCrashes(tagOf, [row], store, map["1" := a], forB, now);
    RetryTakesTheTaggedRow(tagOf, row, AfterBegin(store, tagOf, b), map["1" := a], forB, now);
    hide Run, Next, Returned;
  }

  /** Every call of every run returns its own order exactly when no two client ids share a tag. */
  lemma OwnOrdersExactlyWhenTagsAreDistinct(tagOf: TagScheme)
    ensures (forall events, e :: ReturnsOwnOrder(tagOf, Run(tagOf, events), e)) <==> Injective(tagOf)
  {
    if Injective(tagOf) {
      forall events, e ensures ReturnsOwnOrder(tagOf, Run(tagOf, events), e) {
        CallsReturnOwnOrders(tagOf, events, e);
      }
    } else {
      var a: OrderId, b: OrderId :| tagOf(a) == tagOf(b) && a != b;
      var events, e := CollidingTagsMisattribute(tagOf, a, b);
    }
  }
}
