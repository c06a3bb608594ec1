/** The acknowledgement of a push of local flags to the server. */
module Push {
  import opened Remote
  import opened Entries
  import opened Merge

  /** A successful push: only the local entry's timestamp changes, to the one
      the server returned. */
  function Acknowledge(store: Store, id: int, updatedAt: int): (r: Store)
    requires id in store
    ensures r.Keys == store.Keys
    ensures r[id].updatedAt == updatedAt
    ensures r[id].(updatedAt := store[id].updatedAt) == store[id]
    ensures forall other :: other in store && other != id ==> r[other] == store[other]
  {
    store[id := store[id].(updatedAt := updatedAt)]
  }

  /** Once a push is acknowledged with the server's record, pulling that same
      record again finds the entry in sync: nothing is overwritten and no push
      is re-issued. */
  lemma AcknowledgedPushIsInSync(store: Store, w: WallabagEntry)
    requires w.id in store
    ensures Absorb(Acknowledge(store, w.id, w.updatedAt), w) == Acknowledge(store, w.id, w.updatedAt)
    ensures PushFor(Acknowledge(store, w.id, w.updatedAt), w) == []
  {
  }
}
