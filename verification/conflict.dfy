/** The last-write-wins rule that decides, for an article present on both
    sides, which side is authoritative. */
module Conflict {

  /** What the engine does with an existing entry when a remote record with
      the same id arrives. */
  datatype Decision =
    | InSync       // same timestamp: nothing to do
    | TakeRemote   // the server is newer: hydrate the local entry from it
    | PushLocal    // the device is newer: send the local flags to the server

  /** The three-way comparison of `update(entry:from:)`: each decision is
      taken exactly when its timestamp relation holds. */
  function Resolve(localUpdatedAt: int, remoteUpdatedAt: int): (d: Decision)
    ensures d == InSync <==> remoteUpdatedAt == localUpdatedAt
    ensures d == TakeRemote <==> remoteUpdatedAt > localUpdatedAt
    ensures d == PushLocal <==> remoteUpdatedAt < localUpdatedAt
  {
    if localUpdatedAt != remoteUpdatedAt then
      if remoteUpdatedAt > localUpdatedAt then TakeRemote else PushLocal
    else
      InSync
  }
}
