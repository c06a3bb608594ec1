/** Merging one fetched page of remote records into the local store, as
    `handle(result:)` does item by item, and the properties of that merge.
    The merge of a page is a left fold over its items; the `...First`
    functions give the state after the first `n` items, which is what the
    loop of `handle` has built after `n` iterations. */
module Merge {
  import opened Remote
  import opened Entries
  import opened Conflict

  /** The store after one remote record has been merged, as `handle(result:)`
      does with an item: insert when the id is new, otherwise apply the
      conflict rule. */
  function Absorb(store: Store, w: WallabagEntry): Store
  {
    if w.id !in store then store[w.id := Hydrate(w)]
    else if Resolve(store[w.id].updatedAt, w.updatedAt) == TakeRemote then store[w.id := Hydrate(w)]
    else store
  }

  /** The merge of one record: a new id is inserted fully hydrated; an
      existing entry is overwritten only when the record is strictly newer and
      is otherwise left as it is; nothing else in the store changes. */
  lemma AbsorbRule(store: Store, w: WallabagEntry)
    ensures Absorb(store, w).Keys == store.Keys + {w.id}
    ensures forall id :: id in store && id != w.id ==> Absorb(store, w)[id] == store[id]
    ensures w.id !in store ==> Absorb(store, w)[w.id] == Hydrate(w)
    ensures w.id in store && w.updatedAt > store[w.id].updatedAt ==> Absorb(store, w)[w.id] == Hydrate(w)
    ensures w.id in store && w.updatedAt <= store[w.id].updatedAt ==> Absorb(store, w)[w.id] == store[w.id]
  {
  }

  /** The push that merging one record issues: one, for the local entry's
      id, exactly when a local entry exists and is strictly newer than the
      record. */
  function PushFor(store: Store, w: WallabagEntry): (r: seq<int>)
    ensures |r| <= 1
    ensures r != [] <==> w.id in store && w.updatedAt < store[w.id].updatedAt
    ensures r != [] ==> r[0] == store[w.id].id
  {
    if w.id in store && Resolve(store[w.id].updatedAt, w.updatedAt) == PushLocal then [store[w.id].id] else []
  }

  /** The store after merging the first `n` items, in order. */
  function MergeFirst(store: Store, items: seq<WallabagEntry>, n: nat): Store
    requires n <= |items|
  {
    if n == 0 then store else Absorb(MergeFirst(store, items, n - 1), items[n - 1])
  }

  /** The pushes issued while merging the first `n` items, in order. */
  function PushesFirst(store: Store, items: seq<WallabagEntry>, n: nat): seq<int>
    requires n <= |items|
  {
    if n == 0 then []
    else PushesFirst(store, items, n - 1) + PushFor(MergeFirst(store, items, n - 1), items[n - 1])
  }

  /** The ids of the first `n` items, in item order: what the merge appends
      to the list of synced ids. */
  function IdsFirst(items: seq<WallabagEntry>, n: nat): (ids: seq<int>)
    requires n <= |items|
    ensures |ids| == n
    ensures forall k :: 0 <= k < n ==> ids[k] == items[k].id
  {
    if n == 0 then [] else IdsFirst(items, n - 1) + [items[n - 1].id]
  }

  /** The store after merging a whole page. */
  function MergePage(store: Store, items: seq<WallabagEntry>): Store
  {
    MergeFirst(store, items, |items|)
  }

  /** The pushes issued while merging a whole page. */
  function PagePushes(store: Store, items: seq<WallabagEntry>): seq<int>
  {
    PushesFirst(store, items, |items|)
  }

  /** The ids of a whole page, in item order. */
  function Ids(items: seq<WallabagEntry>): seq<int>
  {
    IdsFirst(items, |items|)
  }

  /** The ids of the first `n` items, as a set. */
  ghost function IdSet(items: seq<WallabagEntry>, n: nat): set<int>
    requires n <= |items|
  {
    set k | 0 <= k < n :: items[k].id
  }

  /** Every record among the first `n` items has a local entry at least as
      new as itself. */
  ghost predicate Dominates(store: Store, items: seq<WallabagEntry>, n: nat)
    requires n <= |items|
  {
    forall k :: 0 <= k < n ==> items[k].id in store && store[items[k].id].updatedAt >= items[k].updatedAt
  }

  /** After a merge the store holds exactly the old ids and the merged ids. */
  lemma {:induction false} MergeKeys(store: Store, items: seq<WallabagEntry>, n: nat)
    requires n <= |items|
    ensures MergeFirst(store, items, n).Keys == store.Keys + IdSet(items, n)
  {
    if n > 0 {
      MergeKeys(store, items, n - 1);
      AbsorbRule(MergeFirst(store, items, n - 1), items[n - 1]);
      assert IdSet(items, n) == IdSet(items, n - 1) + {items[n - 1].id};
    }
  }

  /** A merge keeps every entry stored under its own id. */
  lemma {:induction false} MergeKeyedById(store: Store, items: seq<WallabagEntry>, n: nat)
    requires n <= |items|
    requires KeyedById(store)
    ensures KeyedById(MergeFirst(store, items, n))
  {
    if n > 0 {
      MergeKeyedById(store, items, n - 1);
    }
  }

  /** An id that no merged record carries is left exactly as it was. */
  lemma {:induction false} MergeUntouched(store: Store, items: seq<WallabagEntry>, n: nat, id: int)
    requires n <= |items|
    requires id !in IdSet(items, n)
    ensures id in MergeFirst(store, items, n) <==> id in store
    ensures id in store ==> MergeFirst(store, items, n)[id] == store[id]
  {
    if n > 0 {
      assert items[n - 1].id in IdSet(items, n);
      assert IdSet(items, n - 1) <= IdSet(items, n);
      MergeUntouched(store, items, n - 1, id);
      AbsorbRule(MergeFirst(store, items, n - 1), items[n - 1]);
    }
  }

  /** A merge never drops an entry nor moves its timestamp backwards. */
  lemma {:induction false} MergeMonotone(store: Store, items: seq<WallabagEntry>, n: nat, id: int)
    requires n <= |items|
    requires id in store
    ensures id in MergeFirst(store, items, n)
    ensures MergeFirst(store, items, n)[id].updatedAt >= store[id].updatedAt
  {
    if n > 0 {
      MergeMonotone(store, items, n - 1, id);
      AbsorbRule(MergeFirst(store, items, n - 1), items[n - 1]);
    }
  }

  /** After a merge, every merged record is dominated by its local entry. */
  lemma {:induction false} MergeDominates(store: Store, items: seq<WallabagEntry>, n: nat)
    requires n <= |items|
    ensures Dominates(MergeFirst(store, items, n), items, n)
  {
    if n > 0 {
      var before := MergeFirst(store, items, n - 1);
      MergeDominates(store, items, n - 1);
      AbsorbRule(before, items[n - 1]);
    }
  }

  /** Merging records that the store already dominates changes nothing. */
  lemma {:induction false} DominatedMergeIsIdentity(store: Store, items: seq<WallabagEntry>, n: nat)
    requires n <= |items|
    requires Dominates(store, items, n)
    ensures MergeFirst(store, items, n) == store
  {
    if n > 0 {
      DominatedMergeIsIdentity(store, items, n - 1);
    }
  }

  /** Merging the same page twice leaves the store as one merge left it. */
  lemma MergeIdempotent(store: Store, items: seq<WallabagEntry>)
    ensures MergePage(MergePage(store, items), items) == MergePage(store, items)
  {
    MergeDominates(store, items, |items|);
    DominatedMergeIsIdentity(MergePage(store, items), items, |items|);
  }

  /** The merge of a prefix depends only on the items of that prefix. */
  lemma {:induction false} MergeFirstOfPrefix(store: Store, items: seq<WallabagEntry>, more: seq<WallabagEntry>, n: nat)
    requires n <= |items|
    ensures MergeFirst(store, items + more, n) == MergeFirst(store, items, n)
    ensures IdsFirst(items + more, n) == IdsFirst(items, n)
  {
    if n > 0 {
      MergeFirstOfPrefix(store, items, more, n - 1);
    }
  }

  /** Merging two pages one after the other is merging their concatenation. */
  lemma {:induction false} MergeConcatFirst(store: Store, a: seq<WallabagEntry>, b: seq<WallabagEntry>, m: nat)
    requires m <= |b|
    ensures MergeFirst(MergePage(store, a), b, m) == MergeFirst(store, a + b, |a| + m)
    ensures Ids(a) + IdsFirst(b, m) == IdsFirst(a + b, |a| + m)
  {
    if m == 0 {
      MergeFirstOfPrefix(store, a, b, |a|);
    } else {
      MergeConcatFirst(store, a, b, m - 1);
      assert (a + b)[|a| + m - 1] == b[m - 1];
    }
  }

  /** Merging two pages one after the other is merging their concatenation,
      and their synced ids are the concatenation's. */
  lemma MergeConcat(store: Store, a: seq<WallabagEntry>, b: seq<WallabagEntry>)
    ensures MergePage(MergePage(store, a), b) == MergePage(store, a + b)
    ensures Ids(a) + Ids(b) == Ids(a + b)
  {
    MergeConcatFirst(store, a, b, |b|);
  }

  /** A record whose id is new to the store and appears once in the page ends
      up as a fresh entry hydrated from that record. */
  lemma {:induction false} FreshIdIsHydrated(store: Store, items: seq<WallabagEntry>, n: nat, k: nat)
    requires k < n <= |items|
    requires items[k].id !in store
    requires forall j :: 0 <= j < n && j != k ==> items[j].id != items[k].id
    ensures items[k].id in MergeFirst(store, items, n)
    ensures MergeFirst(store, items, n)[items[k].id] == Hydrate(items[k])
  {
    var before := MergeFirst(store, items, n - 1);
    AbsorbRule(before, items[n - 1]);
    if k == n - 1 {
      MergeKeys(store, items, n - 1);
    } else {
      FreshIdIsHydrated(store, items, n - 1, k);
    }
  }
}
