/** The locally persisted article and the store that holds it. */
module Entries {
  import opened Remote

  /** The local copy of an article, keyed by the remote id. */
  datatype Entry = Entry(
    id: int,
    updatedAt: int,
    isArchived: bool,
    isStarred: bool,
    title: string)

  /** The local store: at most one entry per id, by construction of a map. */
  type Store = map<int, Entry>

  /** Full hydrate: every local field is taken from the remote record. */
  function Hydrate(w: WallabagEntry): Entry
  {
    Entry(w.id, w.updatedAt, w.isArchived, w.isStarred, w.title)
  }

  /** Every entry is stored under its own id (the primary key). */
  ghost predicate KeyedById(store: Store)
  {
    forall id :: id in store ==> store[id].id == id
  }
}
