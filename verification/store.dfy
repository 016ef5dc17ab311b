/** The tracking store, standing in for the SQL table: a map keyed by user and tracking
    number, an upsert that keeps that key unique, and the "due for re-poll" query. */
module Store {
  import opened Parcels

  /** The unique key of a tracking: one user, one tracking number. */
  datatype Key = Key(userId: int, trackingNumber: string)

  /** A tracking as it is stored and as it is read back. `id` 0 means "not stored yet".
      `lastPolledAt` is in Unix seconds, the precision the store keeps. */
  datatype TrackingRecord = TrackingRecord(
    id: int,
    userId: int,
    trackingNumber: string,
    displayName: string,
    trackingInfos: seq<TrackingInfo>,
    lastPolledAt: Option<int>)

  datatype StoreError = StoreError(reason: string)

  type Table = map<Key, TrackingRecord>

  function KeyOf(t: TrackingRecord): Key
  {
    Key(t.userId, t.trackingNumber)
  }

  /** The table's invariant: each row sits under its own key, ids are positive, distinct
      and below the next id the store will hand out. */
  predicate WellFormed(table: Table, nextId: int)
  {
    && 0 < nextId
    && (forall k :: k in table ==> KeyOf(table[k]) == k && 0 < table[k].id < nextId)
    && (forall k, k' :: k in table && k' in table && k != k' ==> table[k].id != table[k'].id)
  }

  datatype Saved = Saved(table: Table, nextId: int, tracking: TrackingRecord)

  /** Saving a tracking. A new key gets a row with a fresh id. For a key already present,
      a tracking that was never stored (id 0) only renames the row; a stored one
      overwrites snapshot, poll time and display name. The id of a row never changes.
      The tracking handed back is the one passed in, with the row's id. */
  function Upsert(table: Table, nextId: int, t: TrackingRecord): (r: Saved)
    requires WellFormed(table, nextId)
    ensures WellFormed(r.table, r.nextId)
    ensures r.table.Keys == table.Keys + {KeyOf(t)}
    ensures forall k :: k in table && k != KeyOf(t) ==> r.table[k] == table[k]
    ensures r.tracking == t.(id := r.table[KeyOf(t)].id)
    ensures KeyOf(t) !in table ==> r.table[KeyOf(t)] == t.(id := nextId) && r.nextId == nextId + 1
    ensures KeyOf(t) in table ==> r.nextId == nextId && r.table[KeyOf(t)].id == table[KeyOf(t)].id
    ensures KeyOf(t) in table && t.id == 0 ==>
      r.table[KeyOf(t)] == table[KeyOf(t)].(displayName := t.displayName)
    ensures KeyOf(t) in table && t.id != 0 ==>
      r.table[KeyOf(t)] == t.(id := table[KeyOf(t)].id)
  {
    var k := KeyOf(t);
    if k !in table then
      Saved(table[k := t.(id := nextId)], nextId + 1, t.(id := nextId))
    else
      var current := table[k];
      var row := if t.id == 0 then current.(displayName := t.displayName) else t.(id := current.id);
      Saved(table[k := row], nextId, t.(id := current.id))
  }

  /** Due for a poll: never polled, or last polled before the cutoff. */
  predicate IsDue(t: TrackingRecord, cutoff: int)
  {
    t.lastPolledAt.None? || t.lastPolledAt.value < cutoff
  }

  /** Every tracking of `listed` is a row of the table, as stored. */
  predicate RowsOf(table: Table, listed: seq<TrackingRecord>)
  {
    forall i :: 0 <= i < |listed| ==> KeyOf(listed[i]) in table && table[KeyOf(listed[i])] == listed[i]
  }

  /** No key occurs twice in `listed`. */
  predicate DistinctKeys(listed: seq<TrackingRecord>)
  {
    forall i, j :: 0 <= i < j < |listed| ==> KeyOf(listed[i]) != KeyOf(listed[j])
  }

  /** `listed` is an answer of the due-for-poll query: every due row once, nothing else,
      in an order the store chooses. */
  predicate IsDueListing(table: Table, cutoff: int, listed: seq<TrackingRecord>)
  {
    && RowsOf(table, listed)
    && DistinctKeys(listed)
    && (forall i :: 0 <= i < |listed| ==> IsDue(listed[i], cutoff))
    && (forall k :: k in table && IsDue(table[k], cutoff) ==> table[k] in listed)
  }

  /** The due-for-poll query. The table has no order, so the order of the answer is
      whatever the choice below picks. */
  method ListLastPolledBefore(table: Table, nextId: int, cutoff: int) returns (listed: seq<TrackingRecord>)
    requires WellFormed(table, nextId)
    ensures IsDueListing(table, cutoff, listed)
  {
    listed := [];
    var pending := table.Keys;
    while pending != {}
      invariant pending <= table.Keys
      invariant forall i :: 0 <= i < |listed| ==>
        KeyOf(listed[i]) in table && table[KeyOf(listed[i])] == listed[i]
        && IsDue(listed[i], cutoff) && KeyOf(listed[i]) !in pending
      invariant forall k :: k in table && k !in pending && IsDue(table[k], cutoff) ==> table[k] in listed
      invariant forall i, j :: 0 <= i < j < |listed| ==> KeyOf(listed[i]) != KeyOf(listed[j])
      decreases pending
    {
      var k :| k in pending;
      if IsDue(table[k], cutoff) {
        listed := listed + [table[k]];
      }
      pending := pending - {k};
    }
  }
}
