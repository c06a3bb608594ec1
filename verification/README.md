# wallabag article sync engine

This project models `ArticleSync`, the synchronisation engine of the wallabag
iOS client. The engine keeps a local store of entries, keyed by integer id,
in step with the paginated list of entries on a wallabag server. A sync pass
runs as follows:

- it fetches page 1 and merges it;
- it learns the page count from page 1 and schedules one task for each of
  pages 2 to `last`;
- it merges every page as that page arrives;
- once every task has finished, it resets `state` and `pageCompleted`
  (`maxPage` keeps its value) and reports `finished`. Then, if any id has
  ever been synced, it purges every stored entry whose id is not among them.

The merge is last-write-wins on a single `updatedAt` timestamp:

- a remote record that is strictly newer overwrites the local entry;
- a local entry that is strictly newer is pushed to the server;
- equal timestamps leave both sides alone.

The model is in Dafny, and its modules follow the structure of the Swift
class:

- `Remote` (`remote.dfy`): what the server returns. This is a remote entry,
  a page (`Collection`: its items and the number of the last page), an API
  error and an API result.
- `Entries` (`entries.dfy`): the local `Entry`. The store is a
  `map<int, Entry>`, so it holds at most one entry per id. `Hydrate` copies
  a remote record's fields into a local entry.
- `Conflict` (`conflict.dfy`): the three-way timestamp decision of
  `update(entry:from:)`.
- `Merge` (`merge.dfy`): merging a page into the store, as a left fold over
  its items, with the pushes the merge issues and the ids it records. The
  lemmas cover:
  - which ids the store holds afterwards;
  - that ids not in the page are untouched;
  - that timestamps never move backwards;
  - that merging a page twice is the same as merging it once;
  - that merging two pages in turn is the same as merging their
    concatenation.
- `Purge` (`purge.dfy`): the purge run by the completion step. Its lemmas
  show what the purge means across passes, given that the list of synced ids
  grows forever.
- `Push` (`push.dfy`): the effect of a successful push on the local entry.
- `Sync` (`article_sync.dfy`): the class `ArticleSync`.
  - Its fields are the source's `state`, `pageCompleted`, `maxPage`,
    `entriesSynced` and the store.
  - The dispatch group is two fields: whether the page-1 request is still
    outstanding (`awaitingFirstPage`), and the page tasks not yet finished
    (`pendingPages`).
  - Output logs record the events sent to the observer and the requests
    issued: page fetches, pushes, server deletes and add requests.
  - The asynchronous callbacks are methods. A caller invokes them in the
    order the callbacks run: `Sync`, then `FirstPageLoaded`, then
    `PageFinished` once per scheduled page in any order, then `Finish`.
  - The object invariant `Valid` ties the dispatch group, the counters and
    the event log to the pass in progress. The ghost fields `passStart` and
    `scheduled` are where the pass began in the log and which pages it
    scheduled.
  - Every method's preconditions say which callbacks can run next.

The engine's documented intent differs from its code in two places, and the
model follows the code:

- **A single page.** The documented intent is that with a single page
  (`last == 1`) no further page is scheduled. The code iterates over the
  closed range `2...collection.last`, which traps when `last < 2`. The model
  makes `last >= 2` a precondition of the page-1 callback.
- **The synced ids.** The documented intent is that the list of synced ids
  is rebuilt at every pass. The code never clears it, so the model keeps
  accumulating it. `Purge.RepeatedPassChangesNothing` states what this means
  for a second pass.

## Model

| member | source | states |
|---|---|---|
| Conflict.Resolve | wallabag/Lib/ArticleSync.swift:126-137 | equal timestamps are in sync; the remote record is taken exactly when it is strictly newer; the local entry is pushed exactly when it is strictly newer |
| Merge.AbsorbRule | wallabag/Lib/ArticleSync.swift:98-105 | merging one record adds its id to the store's keys and changes no other id. A new id gets an entry hydrated from the record. An existing entry is replaced by the hydrated record only when the record is strictly newer, and is otherwise left as it was |
| Merge.PushFor | wallabag/Lib/ArticleSync.swift:126-137 | merging one record issues at most one push. It does so exactly when a local entry with that id exists and is strictly newer than the record, and it pushes the local entry's id |
| Merge.IdsFirst | wallabag/Lib/ArticleSync.swift:98-99 | the ids recorded for the first n items are those items' ids, one per item, in item order |
| Merge.MergeKeys | wallabag/Lib/ArticleSync.swift:98-105 | after a merge the store's ids are exactly the old ids plus the ids of the merged items: no entry is lost, none is duplicated |
| Merge.MergeKeyedById | wallabag/Lib/ArticleSync.swift:100-103 | a merge keeps every entry stored under its own id (the primary key) |
| Merge.MergeUntouched | wallabag/Lib/ArticleSync.swift:93-108 | an id that no merged item carries is present after the merge iff it was before, with the same entry |
| Merge.MergeMonotone | wallabag/Lib/ArticleSync.swift:126-137 | a merge never deletes an entry and never moves its timestamp backwards |
| Merge.MergeDominates | wallabag/Lib/ArticleSync.swift:126-137 | after a merge, every merged record has a local entry at least as new as itself |
| Merge.DominatedMergeIsIdentity | wallabag/Lib/ArticleSync.swift:126-137 | merging records that all have local entries at least as new leaves the store unchanged |
| Merge.MergeIdempotent | wallabag/Lib/ArticleSync.swift:93-108 | merging the same page twice leaves the store exactly as merging it once |
| Merge.MergeConcat | wallabag/Lib/ArticleSync.swift:93-108 | merging page a and then page b gives the same store and the same synced ids as merging a followed by b as one page |
| Merge.FreshIdIsHydrated | wallabag/Lib/ArticleSync.swift:118-122 | an item whose id is new to the store, and occurs once in the page, ends up stored as the entry hydrated from it |
| Purge.Purged | wallabag/Lib/ArticleSync.swift:110-116 | an id is kept iff it is stored and synced; kept entries are unchanged |
| Purge.CompletionStore | wallabag/Lib/ArticleSync.swift:87-89 | the completion step never adds or alters an entry. It keeps every synced entry. When some id was synced, it deletes every unsynced entry. When none was, the store is unchanged |
| Purge.MergedIdsSurvivePurge | wallabag/Lib/ArticleSync.swift:87-89 | whatever was synced earlier, every record merged in a pass survives that pass's purge, with a local entry at least as new as the record |
| Purge.RepeatedPassChangesNothing | wallabag/Lib/ArticleSync.swift:83-116 | the synced ids are never cleared (line 35), so a second pass whose records were all seen in the first, in any order and possibly only some of them, leaves the store exactly as the first pass's completion left it. An entry deleted on the server after its id was synced once is therefore never purged again while the process runs |
| Push.Acknowledge | wallabag/Lib/ArticleSync.swift:150-155 | a successful push changes only the entry's timestamp, to the server's; the keys and every other entry are unchanged |
| Push.AcknowledgedPushIsInSync | wallabag/Lib/ArticleSync.swift:150-155 | after a push is acknowledged, merging the server's record for the same entry changes nothing and issues no new push |
| Sync.PageRange | wallabag/Lib/ArticleSync.swift:64 | the pages of the range from 2 to last are exactly 2, 3, …, last in order: last - 1 pages |
| Sync.ArticleSync.constructor | wallabag/Lib/ArticleSync.swift:31-35 | the engine starts finished, with page counters at 1, no synced ids, empty logs, and the persisted store |
| Sync.ArticleSync.Sync | wallabag/Lib/ArticleSync.swift:49-57 | while a pass is running, the call changes no field, fetches nothing and reports nothing. Otherwise it starts a pass: the state becomes running and page 1 is requested |
| Sync.ArticleSync.FirstPageLoaded | wallabag/Lib/ArticleSync.swift:57-81 | when page 1 succeeds: its items are merged; maxPage becomes last; exactly one running event is reported; exactly pages 2 to last are fetched and pending. When it fails: one error event is reported for an authentication failure and none otherwise; nothing is merged or scheduled; the pass can proceed to completion |
| Sync.ArticleSync.SchedulePages | wallabag/Lib/ArticleSync.swift:61-74 | maxPage becomes last, one running event is reported, and one task is scheduled and fetched per page from 2 to last, in order |
| Sync.ArticleSync.PageFinished | wallabag/Lib/ArticleSync.swift:64-73 | a finished page task merges its page when its fetch succeeded and nothing otherwise, then counts one more page, reports running once, and leaves the dispatch group |
| Sync.ArticleSync.CompletionBlock | wallabag/Lib/ArticleSync.swift:68-72 | one more page counted, one running event reported, exactly that one task removed from the pending tasks |
| Sync.ArticleSync.Finish | wallabag/Lib/ArticleSync.swift:83-90 | the state becomes finished and pageCompleted 1. If pages were scheduled, every one of them had been counted. Finished is reported exactly once in the pass, as its last event. The store becomes the completion-step purge of the accumulated synced ids |
| Sync.ArticleSync.Handle | wallabag/Lib/ArticleSync.swift:93-108 | the page's ids are appended to the synced ids in item order. The store becomes the merge of the page, and the pushes issued are those of the merge, in order |
| Sync.ArticleSync.HandleItem | wallabag/Lib/ArticleSync.swift:98-105 | one item's id is appended to the synced ids, the item is merged into the store by the conflict rule, and its push, if any, is issued |
| Sync.ArticleSync.Purge | wallabag/Lib/ArticleSync.swift:110-116 | the store keeps exactly its synced entries |
| Sync.ArticleSync.Insert | wallabag/Lib/ArticleSync.swift:118-124 | a new id gets the entry hydrated from the remote record; nothing else changes |
| Sync.ArticleSync.UpdateFrom | wallabag/Lib/ArticleSync.swift:126-137 | an existing entry is reconciled by the conflict rule: the store becomes the merge of the record, and a push is issued exactly when the local entry is newer |
| Sync.ArticleSync.Push | wallabag/Lib/ArticleSync.swift:142-147 | one push request is issued, for the entry's id |
| Sync.ArticleSync.PushFinished | wallabag/Lib/ArticleSync.swift:148-158 | a successful push sets only that entry's timestamp to the server's; a failed one changes nothing |
| Sync.ArticleSync.Delete | wallabag/Lib/ArticleSync.swift:162-172 | the stored entry passed in, and exactly that entry, is removed from the store whatever callServer is, and a server delete is requested only when callServer holds |
| Sync.ArticleSync.Add | wallabag/Lib/ArticleSync.swift:174-185 | an add request is issued for the url. On success the returned record is inserted as a new entry; on failure nothing is stored |

## Left out

- Realm persistence is left out. `try! Realm()`, write transactions, `ThreadSafeReference` and the `NSPredicate` filter are not modelled. The store is a map from id to entry, and each write transaction is one assignment to it.
- Failures that crash the app become preconditions, so the model says nothing about what happens after them:
  - the closed range `2...last` with `last < 2`;
  - the force-unwrapped `realm.resolve` of an entry deleted before its push returned;
  - `realm.add` of an id already stored;
  - deleting an entry that is not stored.
- Concurrency is left out: `DispatchGroup`, the dispatch queues and `OperationQueue`. The asynchronous `handle` runs inline, inside the callback that calls it. Races on `entriesSynced`, `state` and the store between the page tasks cannot be expressed in a sequential model.
- `SyncOperation` is not part of this model. A page task is modelled as the fetch of its page, with the page merged when the fetch succeeded, followed by the completion block.
- The network and `initSession` are left out. Remote results are parameters of the callback methods. When `wallabagApi` is nil, no callback ever runs and the pass never completes; the model does not cover that case.
- Push.AcknowledgedPushIsInSync: assumes that the `updatedAtDate` the conflict rule reads (lines 127 and 129) is the stored `updatedAt` that the acknowledgement writes (line 154). `Entry` is not part of this model, so both are one field, `Entry.updatedAt`. If they were separate stored values, an acknowledged push would not stop later passes from pushing again.
- Sync.ArticleSync.Push: the archive and starred parameters are built from `Bool.hashValue`, which is not a stable encoding, so only the entry's id is logged.
- `Entry.hydrate` and the field lists of `Entry` and `WallabagEntry` are not part of this model. Both records carry an id, `updatedAt`, the archived and starred flags and a title, and hydrating copies them.
- Timestamps (`Date`) are integers, so the comparison is a total order without floating-point concerns.
- Logging (`NSLog`) and Spotlight indexing are left out. They only have side effects.
- The observer's `completion` closure is the `events` log.
- The other files of the app are not part of the model: the UI and session state, the views, and the tests of `Article`.
