/** What the client may assume of the party state the server sends: the snapshot of a consistent
    store lists every participant and every song once, as the client reducers require. */
module SnapshotIds {
  import opened Records
  import opened Store
  import ClientView

  /** In a consistent store, the party's snapshot has unique song ids and unique participant ids. */
  lemma SnapshotIdsUnique(db: Database, code: Code)
    requires db.Valid() && code in db.parties
    ensures ClientView.UniqueSongIds(db.Snapshot(code).songs)
    ensures ClientView.UniqueParticipantIds(db.Snapshot(code).participants)
  {
    QueueIdsIncrease(db.songs, code);
    MembersIdsIncrease(db.participants, code);
  }
}
