/** The synchronisation engine `ArticleSync`: a single-flight state machine
    that fetches page 1, schedules pages 2..last, merges every page into the
    local store and, once every page task has finished, resets its counters,
    reports `Finished` and purges.

    The asynchronous callbacks of the engine are modelled as separate methods
    that a caller invokes in the order the callbacks run: `Sync`, then
    `FirstPageLoaded`, then `PageFinished` once per scheduled page in any
    order, then `Finish` (the `group.notify` block).  Remote results are
    parameters; requests and emitted events are appended to output logs. */
module Sync {
  import opened Remote
  import opened Entries
  import opened Conflict
  import opened Merge
  import opened Purge
  import opened Push

  /** The engine's state, also the kind of event it reports to its observer. */
  datatype State = Finished | Running | Error

  /** The pages `2...last` of the closed range, in order (empty when last is 1). */
  function PageRange(last: int): (pages: seq<int>)
    requires last >= 1
    ensures |pages| == last - 1
    ensures forall i :: 0 <= i < |pages| ==> pages[i] == i + 2
  {
    if last == 1 then [] else PageRange(last - 1) + [last]
  }

  class ArticleSync {
    var state: State
    var pageCompleted: int
    var maxPage: int
    /** Every id merged so far; appended to, never cleared. */
    var entriesSynced: seq<int>
    /** The local Realm store. */
    var store: Store

    /** The dispatch group: whether the page-1 request is still outstanding,
        and the page tasks scheduled but not yet completed. */
    var awaitingFirstPage: bool
    var pendingPages: seq<int>

    /** Output logs: events sent to the observer, page requests issued,
        pushes issued (by entry id), server-side deletes and add requests. */
    var events: seq<State>
    var fetches: seq<int>
    var pushes: seq<int>
    var serverDeletes: seq<int>
    var addRequests: seq<string>

    /** Where in `events` the current (or last) pass began, and the pages
        scheduled in the current pass. */
    ghost var passStart: nat
    ghost var scheduled: seq<int>

    /** The whole object invariant: the store's and the pass's. */
    ghost predicate Valid()
      reads this
    {
      KeyedById(store) && SessionValid()
    }

    /** The invariant of the pass bookkeeping, which the store-only methods
        leave alone. */
    ghost predicate SessionValid()
      reads this`state, this`pageCompleted, this`maxPage, this`awaitingFirstPage,
            this`pendingPages, this`events, this`passStart, this`scheduled
    {
      && (state != Running ==> !awaitingFirstPage && pendingPages == [] && pageCompleted == 1)
      && (awaitingFirstPage ==> pendingPages == [] && scheduled == [] && passStart == |events|)
      && pageCompleted + |pendingPages| == 1 + |scheduled|
      && (scheduled == [] || (maxPage >= 2 && scheduled == PageRange(maxPage)))
      && (forall p :: p in pendingPages ==> p in scheduled)
      && passStart <= |events|
      // during a pass no Finished has been reported yet, and every event after
      // the first one of the pass is a progress report
      && (state == Running ==> forall i :: passStart <= i < |events| ==> events[i] != Finished)
      && (state == Running ==> forall i :: passStart < i < |events| ==> events[i] == Running)
    }

    /** The engine over an existing persisted store, idle, with nothing synced. */
    constructor (persisted: Store)
      requires KeyedById(persisted)
      ensures Valid()
      ensures state == Finished && pageCompleted == 1 && maxPage == 1
      ensures entriesSynced == [] && store == persisted
      ensures events == [] && fetches == [] && pushes == [] && serverDeletes == [] && addRequests == []
    {
      state, pageCompleted, maxPage := Finished, 1, 1;
      entriesSynced, store := [], persisted;
      awaitingFirstPage, pendingPages := false, [];
      events, fetches, pushes, serverDeletes, addRequests := [], [], [], [], [];
      passStart, scheduled := 0, [];
    }

    /** Starts a pass unless one is running, in which case nothing happens. */
    method Sync()
      requires Valid()
      modifies this`state, this`awaitingFirstPage, this`fetches, this`passStart
      ensures Valid()
      ensures old(state) == Running ==> unchanged(this)
      ensures old(state) != Running ==>
        && state == Running && awaitingFirstPage
        && fetches == old(fetches) + [1]
        && passStart == |events|
    {
      if state == Running {
        return;
      }
      state := Running;
      awaitingFirstPage := true;
      fetches := fetches + [1];
      passStart := |events|;
    }

    /** The callback of the page-1 request.  On success: merge the page,
        record the page count, report progress and schedule pages 2..last (the
        closed range `2...last` traps unless last >= 2).  On failure: report
        `Error` for an authentication failure only, and schedule nothing. */
    method FirstPageLoaded(result: ApiResult<Collection>)
      requires Valid() && awaitingFirstPage
      requires result.Success? ==> result.value.last >= 2
      modifies this`store, this`entriesSynced, this`pushes, this`maxPage, this`events,
               this`fetches, this`pendingPages, this`awaitingFirstPage, this`scheduled
      ensures Valid() && state == Running && !awaitingFirstPage
      ensures result.Success? ==>
        var items := result.value.items;
        && store == MergePage(old(store), items)
        && entriesSynced == old(entriesSynced) + Ids(items)
        && pushes == old(pushes) + PagePushes(old(store), items)
        && maxPage == result.value.last
        && events == old(events) + [Running]
        && pendingPages == PageRange(result.value.last)
        && fetches == old(fetches) + PageRange(result.value.last)
      ensures result.Failure? ==>
        && store == old(store) && entriesSynced == old(entriesSynced) && pushes == old(pushes)
        && maxPage == old(maxPage) && fetches == old(fetches) && pendingPages == []
        && events == old(events) + (if result.error == InvalidAuth then [Error] else [])
    {
      match result {
        case Success(collection) =>
          ghost var before := store;
          Handle(collection.items);
          MergeKeyedById(before, collection.items, |collection.items|);
          SchedulePages(collection.last);
        case Failure(error) =>
          if error == InvalidAuth {
            events := events + [Error];
          }
      }
      awaitingFirstPage := false;
    }

    /** The rest of the page-1 success path: record the page count, report
        progress, and schedule one page task per page of `2...last`. */
    method SchedulePages(last: int)
      requires last >= 2 && pendingPages == [] && scheduled == []
      modifies this`maxPage, this`events, this`fetches, this`pendingPages, this`scheduled
      ensures maxPage == last && events == old(events) + [Running]
      ensures pendingPages == PageRange(last) && scheduled == PageRange(last)
      ensures fetches == old(fetches) + PageRange(last)
    {
      maxPage := last;
      events := events + [Running];
      ghost var fetchesBefore := fetches;
      var page := 2;
      while page <= last
        invariant 2 <= page <= last + 1
        invariant maxPage == last && events == old(events) + [Running]
        invariant pendingPages == PageRange(page - 1)
        invariant scheduled == PageRange(page - 1)
        invariant fetches == fetchesBefore + PageRange(page - 1)
      {
        pendingPages := pendingPages + [page];
        scheduled := scheduled + [page];
        fetches := fetches + [page];
        page := page + 1;
      }
    }

    /** A scheduled page task has run: its page was merged if it was fetched,
        then the completion block counts it and reports progress. */
    method PageFinished(page: int, result: ApiResult<Collection>)
      requires Valid() && page in pendingPages
      modifies this`store, this`entriesSynced, this`pushes, this`pageCompleted,
               this`events, this`pendingPages
      ensures Valid()
      ensures pageCompleted == old(pageCompleted) + 1
      ensures events == old(events) + [Running]
      ensures multiset(pendingPages) == multiset(old(pendingPages)) - multiset{page}
      ensures result.Success? ==>
        && store == MergePage(old(store), result.value.items)
        && entriesSynced == old(entriesSynced) + Ids(result.value.items)
        && pushes == old(pushes) + PagePushes(old(store), result.value.items)
      ensures result.Failure? ==>
        store == old(store) && entriesSynced == old(entriesSynced) && pushes == old(pushes)
    {
      if result.Success? {
        ghost var before := store;
        Handle(result.value.items);
        MergeKeyedById(before, result.value.items, |result.value.items|);
      }
      CompletionBlock(page);
    }

    /** The completion block of a page task: one more page counted, progress
        reported, and the task leaves the dispatch group. */
    method CompletionBlock(page: int)
      requires SessionValid() && page in pendingPages
      modifies this`pageCompleted, this`events, this`pendingPages
      ensures SessionValid()
      ensures pageCompleted == old(pageCompleted) + 1
      ensures events == old(events) + [Running]
      ensures multiset(pendingPages) == multiset(old(pendingPages)) - multiset{page}
    {
      pageCompleted := pageCompleted + 1;
      events := events + [Running];
      var k :| 0 <= k < |pendingPages| && pendingPages[k] == page;
      assert pendingPages == pendingPages[..k] + [page] + pendingPages[k + 1..];
      pendingPages := pendingPages[..k] + pendingPages[k + 1..];
    }

    /** The completion step, run once the page-1 request and every scheduled
        page task are done: back to `Finished`, counter reset, `Finished`
        reported last, and a purge if any id has ever been synced. */
    method Finish()
      requires Valid() && state == Running && !awaitingFirstPage && pendingPages == []
      modifies this`state, this`pageCompleted, this`events, this`store, this`scheduled
      ensures Valid()
      ensures state == Finished && pageCompleted == 1
      ensures old(scheduled) != [] ==> old(pageCompleted) == maxPage
      ensures events == old(events) + [Finished]
      ensures forall i :: passStart <= i < |events| - 1 ==> events[i] != Finished
      ensures store == CompletionStore(old(store), entriesSynced)
    {
      state := Finished;
      pageCompleted := 1;
      events := events + [Finished];
      if 0 != |entriesSynced| {
        Purge();
      }
      scheduled := [];
    }

    /** Merges one page, item by item and in order, inside one write. */
    method Handle(items: seq<WallabagEntry>)
      modifies this`store, this`entriesSynced, this`pushes
      ensures entriesSynced == old(entriesSynced) + Ids(items)
      ensures store == MergePage(old(store), items)
      ensures pushes == old(pushes) + PagePushes(old(store), items)
    {
      ghost var store0, pushes0, synced0 := store, pushes, entriesSynced;
      var i := 0;
      while i < |items|
        invariant 0 <= i <= |items|
        invariant entriesSynced == synced0 + IdsFirst(items, i)
        invariant store == MergeFirst(store0, items, i)
        invariant pushes == pushes0 + PushesFirst(store0, items, i)
      {
        HandleItem(items[i]);
        i := i + 1;
      }
    }

    /** One item of a page: its id is recorded as synced, then the item is
        reconciled with the existing entry or inserted as a new one. */
    method HandleItem(w: WallabagEntry)
      modifies this`store, this`entriesSynced, this`pushes
      ensures entriesSynced == old(entriesSynced) + [w.id]
      ensures store == Absorb(old(store), w)
      ensures pushes == old(pushes) + PushFor(old(store), w)
    {
      entriesSynced := entriesSynced + [w.id];
      if w.id in store {
        UpdateFrom(store[w.id], w);
      } else {
        Insert(w);
      }
    }

    /** Deletes every stored entry whose id was never synced. */
    method Purge()
      requires KeyedById(store)
      modifies this`store
      ensures KeyedById(store)
      ensures store == Purged(old(store), entriesSynced)
    {
      store := Purged(store, entriesSynced);
    }

    /** Stores a new entry hydrated from the remote record (adding an object
        whose primary key already exists would fail). */
    method Insert(w: WallabagEntry)
      requires w.id !in store
      modifies this`store
      ensures store == old(store)[w.id := Hydrate(w)]
    {
      store := store[w.id := Hydrate(w)];
    }

    /** Reconciles an existing entry with the remote record of the same id. */
    method UpdateFrom(entry: Entry, w: WallabagEntry)
      requires w.id in store && store[w.id] == entry
      modifies this`store, this`pushes
      ensures store == Absorb(old(store), w)
      ensures pushes == old(pushes) + PushFor(old(store), w)
    {
      match Resolve(entry.updatedAt, w.updatedAt) {
        case InSync =>
        case TakeRemote =>
          store := store[w.id := Hydrate(w)];
        case PushLocal =>
          Push(entry);
      }
    }

    /** Sends the local flags of `entry` to the server. */
    method Push(entry: Entry)
      modifies this`pushes
      ensures pushes == old(pushes) + [entry.id]
    {
      pushes := pushes + [entry.id];
    }

    /** The callback of a push: on success the entry's timestamp becomes the
        server's; on failure nothing changes.  The entry must still exist
        (it is resolved and force-unwrapped). */
    method PushFinished(entryId: int, result: ApiResult<WallabagEntry>)
      requires Valid() && entryId in store
      modifies this`store
      ensures Valid()
      ensures result.Success? ==> store == Acknowledge(old(store), entryId, result.value.updatedAt)
      ensures result.Failure? ==> store == old(store)
    {
      if result.Success? {
        store := Acknowledge(store, entryId, result.value.updatedAt);
      }
    }

    /** Deletes a stored entry (the stored object itself is passed), asking
        the server to delete it too when `callServer` holds; the local delete
        does not wait for the server. */
    method Delete(entry: Entry, callServer: bool)
      requires Valid() && entry.id in store && store[entry.id] == entry
      modifies this`store, this`serverDeletes
      ensures Valid()
      ensures store == old(store) - {entry.id}
      ensures serverDeletes == old(serverDeletes) + (if callServer then [entry.id] else [])
    {
      if callServer {
        serverDeletes := serverDeletes + [entry.id];
      }
      store := store - {entry.id};
    }

    /** Asks the server to save `url`; on success the returned record is
        inserted as a new entry, on failure nothing is stored. */
    method Add(url: string, result: ApiResult<WallabagEntry>)
      requires Valid()
      requires result.Success? ==> result.value.id !in store
      modifies this`store, this`addRequests
      ensures Valid()
      ensures addRequests == old(addRequests) + [url]
      ensures result.Success? ==> store == old(store)[result.value.id := Hydrate(result.value)]
      ensures result.Failure? ==> store == old(store)
    {
      addRequests := addRequests + [url];
      if result.Success? {
        Insert(result.value);
      }
    }
  }
}
