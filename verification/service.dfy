/** The reconciliation engine: one fetch-diff-save-publish pass per tracking, the poll
    that runs it over every tracking due for a re-poll, and the track request that
    saves a tracking and runs it once. The provider, the store's failures and the clock
    are parameters; the update stream is a sequence that publishing appends to. */
module Core {
  import opened Parcels
  import opened DiffEngine
  import opened Store

  /** A tracking held in memory while it is reconciled. The reconciliation overwrites
      its snapshot and poll time in place before it saves it. */
  class Tracking {
    var id: int
    var userId: int
    var trackingNumber: string
    var displayName: string
    var trackingInfos: seq<TrackingInfo>
    var lastPolledAt: Option<int>

    /** A tracking read back from the store. */
    constructor (r: TrackingRecord)
      ensures Value() == r
    {
      id := r.id;
      userId := r.userId;
      trackingNumber := r.trackingNumber;
      displayName := r.displayName;
      trackingInfos := r.trackingInfos;
      lastPolledAt := r.lastPolledAt;
    }

    function Value(): TrackingRecord
      reads this
    {
      TrackingRecord(id, userId, trackingNumber, displayName, trackingInfos, lastPolledAt)
    }
  }

  /** Everything the engine changes: the store's table and id counter, and the updates
      published so far. */
  datatype ServiceState = ServiceState(table: Table, nextId: int, updates: seq<TrackingUpdate>)

  /** The outcome of one reconciliation: the new state, and the caller's tracking as the
      reconciliation left it. */
  datatype Reconciled = Reconciled(state: ServiceState, tracking: TrackingRecord)

  /** The update that reports a failed fetch: identity fields and the error, nothing else. */
  function ErrorUpdate(t: TrackingRecord, err: FetchError): TrackingUpdate
  {
    TrackingUpdate(t.trackingNumber, t.userId, t.displayName, [], [], Some(err))
  }

  /** The reconciliation writes to the store: the fetch succeeded, the diff found
      something new and the save goes through. */
  predicate WouldSave(t: TrackingRecord, fetched: FetchResult, saveOk: bool)
  {
    fetched.Success? && Diff(t.trackingInfos, fetched.value).Some? && saveOk
  }

  /** One reconciliation of tracking `t`, given what the provider answered and whether
      the store accepts the save. */
  function Reconcile(st: ServiceState, t: TrackingRecord, reportErrors: bool,
                     fetched: FetchResult, saveOk: bool, now: int): (o: Reconciled)
    requires WellFormed(st.table, st.nextId)
    ensures WellFormed(o.state.table, o.state.nextId)
    ensures st.updates <= o.state.updates && |o.state.updates| <= |st.updates| + 1
    ensures !WouldSave(t, fetched, saveOk) ==>
      o.state.table == st.table && o.state.nextId == st.nextId
    ensures o.state.table.Keys <= st.table.Keys + {KeyOf(t)}
    ensures forall k :: k in st.table && k != KeyOf(t) ==> k in o.state.table && o.state.table[k] == st.table[k]
  {
    match fetched
    case Failure(err) =>
      var published := if reportErrors then [ErrorUpdate(t, err)] else [];
      Reconciled(st.(updates := st.updates + published), t)
    case Success(infos) =>
      match Diff(t.trackingInfos, infos)
      case None => Reconciled(st, t)
      case Some(update) =>
        var t' := t.(trackingInfos := infos, lastPolledAt := Some(now));
        if !saveOk then Reconciled(st, t')
        else
          var saved := Upsert(st.table, st.nextId, t');
          var stamped := update.(trackingNumber := t'.trackingNumber, userId := t'.userId,
                                 displayName := t'.displayName);
          Reconciled(ServiceState(saved.table, saved.nextId, st.updates + [stamped]), t')
  }

  /** A failed fetch saves nothing and leaves the tracking alone; it publishes one update
      carrying the identity fields and the error when errors are reported, none otherwise. */
  lemma FetchFailureSavesNothing(st: ServiceState, t: TrackingRecord, reportErrors: bool,
                                 err: FetchError, saveOk: bool, now: int)
    requires WellFormed(st.table, st.nextId)
    ensures var o := Reconcile(st, t, reportErrors, Failure(err), saveOk, now);
      && o.state.table == st.table && o.state.nextId == st.nextId && o.tracking == t
      && o.state.updates == st.updates +
           (if reportErrors then [TrackingUpdate(t.trackingNumber, t.userId, t.displayName, [], [], Some(err))] else [])
  {
  }

  /** When the diff finds nothing new, nothing is saved or published and the tracking,
      its snapshot and its poll time included, is left as it was. */
  lemma NoChangeIsNoOp(st: ServiceState, t: TrackingRecord, reportErrors: bool,
                       infos: seq<TrackingInfo>, saveOk: bool, now: int)
    requires WellFormed(st.table, st.nextId)
    requires Diff(t.trackingInfos, infos).None?
    ensures Reconcile(st, t, reportErrors, Success(infos), saveOk, now) == Reconciled(st, t)
  {
  }

  /** When the diff finds something but the save fails, the store and the update stream
      are untouched; only the caller's copy has the new snapshot and poll time. */
  lemma FailedSavePublishesNothing(st: ServiceState, t: TrackingRecord, reportErrors: bool,
                                   infos: seq<TrackingInfo>, now: int)
    requires WellFormed(st.table, st.nextId)
    requires Diff(t.trackingInfos, infos).Some?
    ensures var o := Reconcile(st, t, reportErrors, Success(infos), false, now);
      o.state == st && o.tracking == t.(trackingInfos := infos, lastPolledAt := Some(now))
  {
  }

  /** When the diff finds something and the save succeeds, the stored row gets the fetched
      snapshot and the poll time, and exactly one update is published: the diff's new
      blocks and events under the tracking's identity, with no error. */
  lemma SavedChangeIsPublished(st: ServiceState, t: TrackingRecord, reportErrors: bool,
                               infos: seq<TrackingInfo>, now: int)
    requires WellFormed(st.table, st.nextId)
    requires t.id != 0
    requires Diff(t.trackingInfos, infos).Some?
    ensures var o := Reconcile(st, t, reportErrors, Success(infos), true, now);
      var d := Diff(t.trackingInfos, infos).value;
      && KeyOf(t) in o.state.table
      && o.state.table[KeyOf(t)].trackingInfos == infos
      && o.state.table[KeyOf(t)].lastPolledAt == Some(now)
      && o.state.table[KeyOf(t)].displayName == t.displayName
      && o.state.updates == st.updates + [TrackingUpdate(t.trackingNumber, t.userId, t.displayName,
                                                         d.newTrackingInfos, d.newTrackingEvents, None)]
  {
  }

  /** Persistence happens before publication: an update without error is only ever
      published once the fetched snapshot is in the store. */
  lemma PublishedOnlyAfterSave(st: ServiceState, t: TrackingRecord, reportErrors: bool,
                               fetched: FetchResult, saveOk: bool, now: int)
    requires WellFormed(st.table, st.nextId)
    requires t.id != 0
    ensures var o := Reconcile(st, t, reportErrors, fetched, saveOk, now);
      |o.state.updates| > |st.updates| && o.state.updates[|st.updates|].trackingError.None? ==>
        && fetched.Success? && saveOk
        && KeyOf(t) in o.state.table
        && o.state.table[KeyOf(t)].trackingInfos == fetched.value
        && o.state.table[KeyOf(t)].lastPolledAt == Some(now)
  {
  }

  /** Fetching again the snapshot that a reconciliation has just saved changes nothing,
      as long as that snapshot is not empty and names each provider once. */
  lemma RefetchIsNoOp(st: ServiceState, t: TrackingRecord, reportErrors: bool,
                      infos: seq<TrackingInfo>, now: int,
                      reportErrors': bool, saveOk': bool, now': int)
    requires WellFormed(st.table, st.nextId)
    requires t.id != 0
    requires infos != [] && DistinctApiNames(infos)
    requires WouldSave(t, Success(infos), true)
    ensures var o := Reconcile(st, t, reportErrors, Success(infos), true, now);
      var row := o.state.table[KeyOf(t)];
      Reconcile(o.state, row, reportErrors', Success(infos), saveOk', now') == Reconciled(o.state, row)
  {
    var o := Reconcile(st, t, reportErrors, Success(infos), true, now);
    assert o.state.table[KeyOf(t)].trackingInfos == infos;
    IdenticalSnapshotNoChange(infos);
  }

  /** A tracking whose stored snapshot is empty is told about every fetch, even an empty
      one, and an empty fetch leaves the snapshot empty: such a tracking publishes an
      update with nothing in it on every reconciliation that can save. */
  lemma EmptyFetchRepublished(st: ServiceState, t: TrackingRecord, now: int, now': int)
    requires WellFormed(st.table, st.nextId)
    requires t.id != 0 && t.trackingInfos == []
    ensures var o := Reconcile(st, t, false, Success([]), true, now);
      var row := o.state.table[KeyOf(t)];
      var o' := Reconcile(o.state, row, false, Success([]), true, now');
      && row.trackingInfos == []
      && o.state.updates == st.updates + [TrackingUpdate(t.trackingNumber, t.userId, t.displayName, [], [], None)]
      && o'.state.updates == o.state.updates + [TrackingUpdate(t.trackingNumber, t.userId, t.displayName, [], [], None)]
  {
    var o := Reconcile(st, t, false, Success([]), true, now);
    var row := o.state.table[KeyOf(t)];
    assert row.trackingInfos == [] && row.id != 0;
    assert row.trackingNumber == t.trackingNumber && row.userId == t.userId && row.displayName == t.displayName;
  }

  /** The state after a poll that reconciles, in order, each tracking of `listed`
      without reporting errors. */
  function PollAll(st: ServiceState, listed: seq<TrackingRecord>, now: int,
                   provider: string -> FetchResult, saveFailures: Key -> Option<StoreError>): (r: ServiceState)
    requires WellFormed(st.table, st.nextId)
    ensures WellFormed(r.table, r.nextId)
    decreases |listed|
  {
    if listed == [] then st
    else
      var t := listed[|listed| - 1];
      var before := PollAll(st, listed[..|listed| - 1], now, provider, saveFailures);
      Reconcile(before, t, false, provider(t.trackingNumber), saveFailures(KeyOf(t)).None?, now).state
  }

  /** A poll never publishes an error, and publishes at most one update per tracking. */
  lemma {:induction false} PollPublishesNoErrors(st: ServiceState, listed: seq<TrackingRecord>, now: int,
                                                 provider: string -> FetchResult,
                                                 saveFailures: Key -> Option<StoreError>)
    requires WellFormed(st.table, st.nextId)
    ensures var r := PollAll(st, listed, now, provider, saveFailures);
      && st.updates <= r.updates
      && |r.updates| <= |st.updates| + |listed|
      && forall i :: |st.updates| <= i < |r.updates| ==> r.updates[i].trackingError.None?
    decreases |listed|
  {
    if listed != [] {
      PollPublishesNoErrors(st, listed[..|listed| - 1], now, provider, saveFailures);
    }
  }

  /** A poll writes a row only through a reconciliation that saves it: a row none of
      whose listed trackings gets a change saved (not listed, fetch failed, nothing new,
      save failed) keeps its snapshot and poll time, so a row whose fetch failed stays
      due for the next poll. */
  lemma {:induction false} PollKeepsUnsavedRows(st: ServiceState, listed: seq<TrackingRecord>, now: int,
                                                provider: string -> FetchResult,
                                                saveFailures: Key -> Option<StoreError>, k: Key)
    requires WellFormed(st.table, st.nextId)
    requires k in st.table
    requires forall i :: 0 <= i < |listed| && KeyOf(listed[i]) == k ==>
      !WouldSave(listed[i], provider(listed[i].trackingNumber), saveFailures(k).None?)
    ensures var r := PollAll(st, listed, now, provider, saveFailures);
      k in r.table && r.table[k] == st.table[k]
    decreases |listed|
  {
    if listed != [] {
      PollKeepsUnsavedRows(st, listed[..|listed| - 1], now, provider, saveFailures, k);
    }
  }

  /** The row of tracking `t` after its reconciliation: the fetched snapshot and the
      poll time when the reconciliation saves, `t` itself otherwise. */
  function PolledRow(t: TrackingRecord, fetched: FetchResult, saveOk: bool, now: int): TrackingRecord
  {
    if WouldSave(t, fetched, saveOk)
    then t.(trackingInfos := fetched.value, lastPolledAt := Some(now))
    else t
  }

  /** A reconciliation of a stored row, read back as it is stored: when it saves, the row
      takes the fetched snapshot and the poll time; otherwise the row is unchanged. */
  lemma ReconcileStoredRow(st: ServiceState, t: TrackingRecord, fetched: FetchResult,
                           saveOk: bool, now: int)
    requires WellFormed(st.table, st.nextId)
    requires KeyOf(t) in st.table && st.table[KeyOf(t)] == t
    ensures var r := Reconcile(st, t, false, fetched, saveOk, now).state;
      && KeyOf(t) in r.table
      && r.table[KeyOf(t)] == PolledRow(t, fetched, saveOk, now)
  {
    assert t.id != 0;
  }

  /** A poll is the poll of all but the last listed tracking, followed by the
      reconciliation of the last one. */
  lemma PollAllStep(st: ServiceState, listed: seq<TrackingRecord>, now: int,
                    provider: string -> FetchResult, saveFailures: Key -> Option<StoreError>)
    requires WellFormed(st.table, st.nextId)
    requires listed != []
    ensures var before := PollAll(st, listed[..|listed| - 1], now, provider, saveFailures);
      var last := listed[|listed| - 1];
      && WellFormed(before.table, before.nextId)
      && PollAll(st, listed, now, provider, saveFailures)
         == Reconcile(before, last, false, provider(last.trackingNumber),
                      saveFailures(KeyOf(last)).None?, now).state
  {
  }

  /** Reconciling the last listed tracking leaves every other row as the earlier
      reconciliations left it. */
  lemma PollKeepsEarlierRow(st: ServiceState, listed: seq<TrackingRecord>, now: int,
                            provider: string -> FetchResult,
                            saveFailures: Key -> Option<StoreError>, k: Key)
    requires WellFormed(st.table, st.nextId)
    requires listed != [] && k != KeyOf(listed[|listed| - 1])
    requires k in PollAll(st, listed[..|listed| - 1], now, provider, saveFailures).table
    ensures var before := PollAll(st, listed[..|listed| - 1], now, provider, saveFailures);
      var r := PollAll(st, listed, now, provider, saveFailures);
      k in r.table && r.table[k] == before.table[k]
  {
    PollAllStep(st, listed, now, provider, saveFailures);
  }

  /** The last listed row of a poll: no earlier reconciliation touches it, so its own
      reconciliation starts from the row as stored. */
  lemma PollLastRowOutcome(st: ServiceState, listed: seq<TrackingRecord>, now: int,
                           provider: string -> FetchResult,
                           saveFailures: Key -> Option<StoreError>)
    requires WellFormed(st.table, st.nextId)
    requires RowsOf(st.table, listed) && DistinctKeys(listed)
    requires listed != []
    ensures var r := PollAll(st, listed, now, provider, saveFailures);
      var t := listed[|listed| - 1];
      && KeyOf(t) in r.table
      && r.table[KeyOf(t)] == PolledRow(t, provider(t.trackingNumber), saveFailures(KeyOf(t)).None?, now)
  {
    var n := |listed| - 1;
    var init := listed[..n];
    var last := listed[n];
    var k := KeyOf(last);
    forall j | 0 <= j < |init|
      ensures KeyOf(init[j]) != k
    {
      assert init[j] == listed[j];
    }
    PollKeepsUnsavedRows(st, init, now, provider, saveFailures, k);
    PollAllStep(st, listed, now, provider, saveFailures);
    ReconcileStoredRow(PollAll(st, init, now, provider, saveFailures), last,
                       provider(last.trackingNumber), saveFailures(k).None?, now);
  }

  /** The effect of a poll on one listed row: when its reconciliation saves, the row
      holds the fetched snapshot and the poll time; otherwise it is unchanged. */
  lemma {:induction false} PollRowOutcome(st: ServiceState, listed: seq<TrackingRecord>, now: int,
                                          provider: string -> FetchResult,
                                          saveFailures: Key -> Option<StoreError>, i: nat)
    requires WellFormed(st.table, st.nextId)
    requires RowsOf(st.table, listed) && DistinctKeys(listed)
    requires i < |listed|
    ensures var r := PollAll(st, listed, now, provider, saveFailures);
      var t := listed[i];
      && KeyOf(t) in r.table
      && r.table[KeyOf(t)] == PolledRow(t, provider(t.trackingNumber), saveFailures(KeyOf(t)).None?, now)
    decreases |listed|
  {
    var n := |listed| - 1;
    if i < n {
      var init := listed[..n];
      assert listed[i] == init[i];
      assert RowsOf(st.table, init) && DistinctKeys(init);
      PollRowOutcome(st, init, now, provider, saveFailures, i);
      PollKeepsEarlierRow(st, listed, now, provider, saveFailures, KeyOf(listed[i]));
    } else {
      PollLastRowOutcome(st, listed, now, provider, saveFailures);
    }
  }

  /** A track request: save the tracking (a new row, or only a new display name for a
      tracking the user already has), then reconcile the tracking that the save handed
      back, reporting errors. */
  function TrackSpec(st: ServiceState, userId: int, trackingNumber: string, displayName: string,
                     saveFailure: Option<StoreError>, fetched: FetchResult, reconcileSaveOk: bool,
                     now: int): (r: ServiceState)
    requires WellFormed(st.table, st.nextId)
    ensures WellFormed(r.table, r.nextId)
    ensures saveFailure.None? ==> Key(userId, trackingNumber) in r.table
  {
    if saveFailure.Some? then st
    else
      var saved := Upsert(st.table, st.nextId, TrackingRecord(0, userId, trackingNumber, displayName, [], None));
      Reconcile(ServiceState(saved.table, saved.nextId, st.updates), saved.tracking, true,
                fetched, reconcileSaveOk, now).state
  }

  /** The tracking a track request reconciles is the one it saved, with an empty snapshot,
      so a successful fetch is always reported whole, even when the user already tracked
      the number and the store held an older snapshot. The row then holds that snapshot. */
  lemma TrackPublishesWholeSnapshot(st: ServiceState, userId: int, trackingNumber: string,
                                    displayName: string, infos: seq<TrackingInfo>, now: int)
    requires WellFormed(st.table, st.nextId)
    ensures var r := TrackSpec(st, userId, trackingNumber, displayName, None, Success(infos), true, now);
      var k := Key(userId, trackingNumber);
      && r.updates == st.updates + [TrackingUpdate(trackingNumber, userId, displayName, infos, [], None)]
      && r.table[k] == TrackingRecord(if k in st.table then st.table[k].id else st.nextId,
                                      userId, trackingNumber, displayName, infos, Some(now))
  {
    var k := Key(userId, trackingNumber);
    var saved := Upsert(st.table, st.nextId, TrackingRecord(0, userId, trackingNumber, displayName, [], None));
    assert saved.tracking.trackingInfos == [] && saved.tracking.id != 0;
  }

  /** A track request whose fetch fails reports the error once; the row exists, carries
      the new display name and keeps any snapshot and poll time it had. */
  lemma TrackReportsFetchError(st: ServiceState, userId: int, trackingNumber: string,
                               displayName: string, err: FetchError, reconcileSaveOk: bool, now: int)
    requires WellFormed(st.table, st.nextId)
    ensures var r := TrackSpec(st, userId, trackingNumber, displayName, None, Failure(err), reconcileSaveOk, now);
      var k := Key(userId, trackingNumber);
      && r.updates == st.updates + [TrackingUpdate(trackingNumber, userId, displayName, [], [], Some(err))]
      && k in r.table && r.table[k].displayName == displayName
      && (k in st.table ==> r.table[k] == st.table[k].(displayName := displayName))
  {
  }

  /** A track request saves a snapshot; polling it again with the very same answer from
      the provider saves and publishes nothing. */
  lemma TrackThenIdenticalPollIsQuiet(st: ServiceState, userId: int, trackingNumber: string,
                                      displayName: string, infos: seq<TrackingInfo>, now: int,
                                      saveOk': bool, now': int)
    requires WellFormed(st.table, st.nextId)
    requires infos != [] && DistinctApiNames(infos)
    ensures var r := TrackSpec(st, userId, trackingNumber, displayName, None, Success(infos), true, now);
      var row := r.table[Key(userId, trackingNumber)];
      Reconcile(r, row, false, Success(infos), saveOk', now') == Reconciled(r, row)
  {
    TrackPublishesWholeSnapshot(st, userId, trackingNumber, displayName, infos, now);
    IdenticalSnapshotNoChange(infos);
  }

  /** The engine: the store's table, the ids it hands out, and the update stream. */
  class Service {
    var table: Table
    var nextId: int
    var updates: seq<TrackingUpdate>
    const pollingDuration: int

    ghost predicate Valid()
      reads this
    {
      WellFormed(table, nextId)
    }

    function State(): ServiceState
      reads this
    {
      ServiceState(table, nextId, updates)
    }

    constructor (table: Table, nextId: int, pollingDuration: int)
      requires WellFormed(table, nextId)
      ensures Valid()
      ensures State() == ServiceState(table, nextId, [])
      ensures this.pollingDuration == pollingDuration
    {
      this.table := table;
      this.nextId := nextId;
      this.updates := [];
      this.pollingDuration := pollingDuration;
    }

    /** The store's save: fails with `failure` when there is one, upserts otherwise. */
    method SaveTracking(t: TrackingRecord, failure: Option<StoreError>) returns (r: Result<TrackingRecord, StoreError>)
      requires Valid()
      modifies this
      ensures Valid()
      ensures failure.Some? ==> r == Failure(failure.value) && State() == old(State())
      ensures failure.None? ==>
        var saved := Upsert(old(table), old(nextId), t);
        r == Success(saved.tracking) && State() == ServiceState(saved.table, saved.nextId, old(updates))
    {
      if failure.Some? {
        return Failure(failure.value);
      }
      var saved := Upsert(table, nextId, t);
      table, nextId := saved.table, saved.nextId;
      return Success(saved.tracking);
    }

    /** One reconciliation of `tracking`: on a failed fetch report the error if asked to;
        otherwise diff, and on a change overwrite the tracking's snapshot and poll time,
        save it, and publish the update once the save went through. */
    method FetchTrackingInfo(tracking: Tracking, reportErrors: bool, fetched: FetchResult,
                             saveFailure: Option<StoreError>, now: int)
      requires Valid()
      modifies this, tracking
      ensures Valid()
      ensures State() ==
        Reconcile(old(State()), old(tracking.Value()), reportErrors, fetched, saveFailure.None?, now).state
      ensures tracking.Value() ==
        Reconcile(old(State()), old(tracking.Value()), reportErrors, fetched, saveFailure.None?, now).tracking
    {
      if fetched.Failure? {
        if reportErrors {
          updates := updates + [TrackingUpdate(tracking.trackingNumber, tracking.userId, tracking.displayName,
                                               [], [], Some(fetched.error))];
        }
        return;
      }
      var trackingUpdate := GetTrackingUpdate(tracking.trackingInfos, fetched.value);
      if trackingUpdate.None? {
        return;
      }
      tracking.trackingInfos := fetched.value;
      tracking.lastPolledAt := Some(now);
      var saved := SaveTracking(tracking.Value(), saveFailure);
      if saved.Failure? {
        return;
      }
      var update := trackingUpdate.value.(trackingNumber := tracking.trackingNumber,
                                          userId := tracking.userId,
                                          displayName := tracking.displayName);
      updates := updates + [update];
    }

    /** One poll: list the trackings due (never polled, or polled more than one polling
        interval ago) and reconcile each in turn without reporting errors. A failed
        listing ends the poll. `listed` is the answer the store gave. */
    method Poll(now: int, listFailure: Option<StoreError>, provider: string -> FetchResult,
                saveFailures: Key -> Option<StoreError>) returns (ghost listed: seq<TrackingRecord>)
      requires Valid()
      modifies this
      ensures Valid()
      ensures listFailure.Some? ==> listed == []
      ensures listFailure.None? ==> IsDueListing(old(table), now - pollingDuration, listed)
      ensures State() == PollAll(old(State()), listed, now, provider, saveFailures)
    {
      if listFailure.Some? {
        listed := [];
        return;
      }
      var trackings := ListLastPolledBefore(table, nextId, now - pollingDuration);
      listed := trackings;
      ReconcileListed(trackings, now, provider, saveFailures);
    }

    /** The loop of a poll: reconcile the listed trackings one after the other, each
        read back into a fresh `Tracking`, without reporting errors. */
    method ReconcileListed(trackings: seq<TrackingRecord>, now: int, provider: string -> FetchResult,
                           saveFailures: Key -> Option<StoreError>)
      requires Valid()
      modifies this
      ensures Valid()
      ensures State() == PollAll(old(State()), trackings, now, provider, saveFailures)
    {
      for i := 0 to |trackings|
        invariant Valid()
        invariant State() == PollAll(old(State()), trackings[..i], now, provider, saveFailures)
      {
        var t := trackings[i];
        assert trackings[..i + 1][..i] == trackings[..i];
        PollAllStep(old(State()), trackings[..i + 1], now, provider, saveFailures);
        var tracking := new Tracking(t);
        FetchTrackingInfo(tracking, false, provider(t.trackingNumber), saveFailures(KeyOf(t)), now);
      }
      assert trackings[..|trackings|] == trackings;
    }

    /** A track request: save a new tracking with an empty snapshot and return the store's
        error if that fails; otherwise reconcile the saved tracking, reporting errors. */
    method Track(userId: int, trackingNumber: string, displayName: string,
                 saveFailure: Option<StoreError>, fetched: FetchResult,
                 reconcileSaveFailure: Option<StoreError>, now: int) returns (err: Option<StoreError>)
      requires Valid()
      modifies this
      ensures Valid()
      ensures err == saveFailure
      ensures State() == TrackSpec(old(State()), userId, trackingNumber, displayName, saveFailure,
                                   fetched, reconcileSaveFailure.None?, now)
    {
      var saved := SaveTracking(TrackingRecord(0, userId, trackingNumber, displayName, [], None), saveFailure);
      if saved.Failure? {
        return Some(saved.error);
      }
      var tracking := new Tracking(saved.value);
      FetchTrackingInfo(tracking, true, fetched, reconcileSaveFailure, now);
      return None;
    }
  }
}
