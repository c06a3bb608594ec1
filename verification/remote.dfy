/** Wire-level types of the remote read-it-later service: what a list request,
    an update, a delete and a create hand back to the synchronisation engine. */
module Remote {

  /** The server's record of one article.  Only the fields the engine reads or
      copies are kept: the id, the update timestamp, the two user flags and the
      title, which stands for every other field that `hydrate` copies. */
  datatype WallabagEntry = WallabagEntry(
    id: int,
    updatedAt: int,
    isArchived: bool,
    isStarred: bool,
    title: string)

  /** One page of the paginated listing: its items and the number of the last page. */
  datatype Collection = Collection(items: seq<WallabagEntry>, last: int)

  /** The failure kinds the engine tells apart: only `InvalidAuth` is surfaced. */
  datatype ApiError = InvalidAuth | OtherError

  /** The outcome of a call to the remote service. */
  datatype ApiResult<+T> = Success(value: T) | Failure(error: ApiError)
}
