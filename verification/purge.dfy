/** The completion step's garbage collection, and what it means across sync
    passes, given that the synced ids are never cleared. */
module Purge {
  import opened Remote
  import opened Entries
  import opened Merge

  /** The store with every entry whose id is not in `synced` deleted. */
  function Purged(store: Store, synced: seq<int>): (r: Store)
    ensures forall id :: id in r <==> id in store && id in synced
    ensures forall id :: id in r ==> r[id] == store[id]
  {
    map id | id in store && id in synced :: store[id]
  }

  /** The store after the completion step: purge runs only when at least one
      id has been synced; with none, every entry survives. */
  function CompletionStore(store: Store, synced: seq<int>): (r: Store)
    ensures r.Keys <= store.Keys
    ensures forall id :: id in r ==> r[id] == store[id]
    ensures forall id :: id in store && id in synced ==> id in r
    ensures synced != [] ==> forall id :: id in store && id !in synced ==> id !in r
    ensures synced == [] ==> r == store
  {
    if |synced| != 0 then Purged(store, synced) else store
  }

  /** Whatever ids were synced before, every record merged in this pass
      survives the completion step that follows, at least as new as itself. */
  lemma MergedIdsSurvivePurge(store: Store, items: seq<WallabagEntry>, earlier: seq<int>)
    ensures Dominates(CompletionStore(MergePage(store, items), earlier + Ids(items)), items, |items|)
  {
    MergeDominates(store, items, |items|);
    var synced := earlier + Ids(items);
    forall k | 0 <= k < |items| ensures items[k].id in synced {
      assert synced[|earlier| + k] == items[k].id;
    }
  }

  /** A second sync pass that sees no remote change (only records already seen
      in the first, in any order and grouping) leaves the store exactly as the
      first pass left it, even though the synced ids keep accumulating. */
  lemma {:induction false} RepeatedPassChangesNothing(
    store: Store, earlier: seq<int>, first: seq<WallabagEntry>, again: seq<WallabagEntry>)
    requires forall w :: w in again ==> w in first
    ensures var synced := earlier + Ids(first);
            var afterFirst := CompletionStore(MergePage(store, first), synced);
            CompletionStore(MergePage(afterFirst, again), synced + Ids(again)) == afterFirst
  {
    var synced := earlier + Ids(first);
    var afterFirst := CompletionStore(MergePage(store, first), synced);
    MergedIdsSurvivePurge(store, first, earlier);
    forall k | 0 <= k < |again|
      ensures again[k].id in afterFirst && afterFirst[again[k].id].updatedAt >= again[k].updatedAt
    {
      assert again[k] in again;
      var j :| 0 <= j < |first| && first[j] == again[k];
    }
    DominatedMergeIsIdentity(afterFirst, again, |again|);
    assert again == [] || first != [] by {
      if again != [] {
        assert again[0] in again;
      }
    }
    var final := CompletionStore(afterFirst, synced + Ids(again));
    if synced != [] {
      forall id | id in afterFirst ensures id in final {
        var k :| 0 <= k < |synced| && synced[k] == id;
        assert (synced + Ids(again))[k] == id;
      }
    } else {
      assert |Ids(first)| == |first|;
    }
  }
}
