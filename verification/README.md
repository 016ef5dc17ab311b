# Parcel-tracking reconciliation engine, modelled in Dafny

This project models the core of a parcel-tracking bot service: the engine that keeps
each user's tracked parcels up to date. For one tracking (a user's subscription to a
tracking number) the engine works in four steps:

1. It asks the tracking provider for the current list of tracking-info blocks.
2. It diffs that list against the stored snapshot.
3. If something is new, it overwrites the snapshot and stamps the poll time, then saves
   the tracking.
4. Once the save has gone through, it publishes a `TrackingUpdate` on the update stream.

A periodic poll runs this reconciliation, without reporting errors, over every tracking
that was never polled or was last polled more than one polling interval ago. A track
request saves a new tracking and then runs the reconciliation once, reporting errors.

Files:

- `parcels.dfy` (module `Parcels`) holds the provider's values: `TrackingEvent`,
  `TrackingInfo` and `FetchError`, plus `Option`/`Result`.
- `diff.dfy` (module `DiffEngine`) holds the snapshot diff.
  - `Diff` is a recursive specification.
  - `GetTrackingUpdate` is the loop implementation, built from the helpers
    `CollectNewEvents` and `FindEvent`. It is proved equal to `Diff`.
  - The lemmas state the diff's rules exactly: matching by provider name, the
    first-namesake rule, the same-event-count skip, event identity by status and time,
    fetched order, and when the result is nil.
- `store.dfy` (module `Store`) stands in for the SQL table.
  - The table is a map keyed by (user, tracking number).
  - `Upsert` is the insert-or-update on that key.
  - `ListLastPolledBefore` is the due-for-poll query.
- `service.dfy` (module `Core`) holds the imperative engine.
  - `Tracking` is a class that the reconciliation mutates in place.
  - `Service` is a class holding the table, the id counter and the update log.
    Its methods are `FetchTrackingInfo`, `Poll` (with its loop `ReconcileListed`),
    `Track` and `SaveTracking`.
  - Each method is proved against a pure specification (`Reconcile`, `PollAll`,
    `TrackSpec`), and the lemmas state the branch-by-branch promises about those
    specifications.

What is a parameter:

- Everything outside the core is a parameter:
  - the provider's answer (`FetchResult`, or `provider: string -> FetchResult` for a poll);
  - a store failure (`Option<StoreError>`, or `Key -> Option<StoreError>` for a poll);
  - a failure of the due-for-poll query;
  - the current time `now`, in Unix seconds.
- Publishing on the update stream appends to the sequence `updates`.

Behaviour of the code that one might not expect, and that the model keeps:

- **Identical snapshots are not always "no change".** One might expect diffing any
  non-empty snapshot against itself to give "no change". The code guarantees this only
  when no two blocks of the snapshot share a provider name, because each fetched block
  is compared with the *first* stored block of its name.
  `IdenticalSnapshotNoChange` proves the property under that condition.
  `RepeatedApiNameNotStable` exhibits a snapshot `[post:[e1], post:[e1,e2]]` whose diff
  against itself reports `e2` as new.
- **An empty fetch is "news" when the stored snapshot is empty.** An empty fetch counts
  as news whenever the stored snapshot is empty too. That empty snapshot is then saved,
  so an empty update is published on every reconciliation that can save
  (`EmptyFetchRepublished`).
- **Re-tracking re-reports the whole snapshot.** A track request reconciles the
  tracking that the save hands back. That tracking carries the empty snapshot it was
  saved with, not the snapshot already stored. So a successful fetch is always
  published whole, even when the user re-tracks a number whose stored snapshot is up to
  date (`TrackPublishesWholeSnapshot`). Re-tracking returns success rather than an
  "already exists" error: the save only renames the existing row.

## Model

| member | source | states |
|---|---|---|
| `DiffEngine.FirstMatch` | core/service.go:211-214 | the index found is that of the first stored block with the fetched block's provider name, or the end of the list when no block has that name |
| `DiffEngine.NewEvents` | core/service.go:221-234 | every reported event is a fetched event that no stored event matches on status and time; at most as many as fetched |
| `DiffEngine.Collect` | core/service.go:210-243 | each fetched block adds at most one new block; a block's contribution (`BlockDelta`) is the whole block when no stored block has its provider name, nothing when its first stored namesake has the same event count, and otherwise the events `NewEvents` reports against that namesake |
| `DiffEngine.Diff` | core/service.go:198-250 | an empty stored snapshot gives a non-nil update whose new blocks are exactly the fetched list (even an empty one) and with no new events; otherwise a non-nil result always carries a new block or a new event; the tracking number, user id and display name are left blank and there is no error |
| `DiffEngine.FindEvent` | core/service.go:222-230 | the `found` flag is true exactly when some stored event has the fetched event's status and time (`SameEvent`: status and time equal, description ignored) |
| `DiffEngine.CollectNewEvents` | core/service.go:221-234 | the event loop of a block whose event count changed appends exactly the events `NewEvents` reports, in fetched order |
| `DiffEngine.GetTrackingUpdate` | core/service.go:198-250 | the nested loops with the jump to the next fetched block compute exactly the diff, nil included |
| `DiffEngine.NewEventsAppend` | core/service.go:221-234 | new events of a concatenation are the new events of each part, one after the other: reported events keep fetched order |
| `DiffEngine.NewEventsReportedIff` | core/service.go:221-234 | a fetched event is reported if and only if no stored event of the matched block has the same status and time |
| `DiffEngine.NewEventsIgnoreDescriptions` | core/service.go:224-226 | stored events differing only in description give the same new events: description is not part of event identity |
| `DiffEngine.CollectAppend` | core/service.go:210-243 | fetched blocks are handled independently and in order: the diff of a concatenation is the diffs of the parts in sequence |
| `DiffEngine.UnmatchedInfos` | core/service.go:238-240 | reference definition: a block is in the result if and only if it is fetched and no stored block has its provider name |
| `DiffEngine.CollectInfosAreUnmatched` | core/service.go:210-240 | the new blocks are exactly the fetched blocks from unknown providers, whole and in fetched order |
| `DiffEngine.CollectEventsIff` | core/service.go:211-235 | an event is new if and only if some fetched block's first stored namesake has a different event count and no event with that status and time |
| `DiffEngine.DiffContents` | core/service.go:208-249 | a non-nil diff of a non-empty snapshot carries as new blocks exactly the unknown-provider blocks in fetched order, and as new events exactly the reported ones |
| `DiffEngine.SameCountBlockIgnored` | core/service.go:215-216 | a fetched block whose first stored namesake has the same event count contributes nothing, whatever its events say: removing it leaves the diff unchanged |
| `DiffEngine.DiffNoneIff` | core/service.go:245-249 | the diff is nil if and only if the stored snapshot is non-empty and every fetched block has a known provider and either the same event count or only known events |
| `DiffEngine.IdenticalSnapshotNoChange` | core/service.go:210-247 | a non-empty snapshot whose provider names are distinct diffs to nil against itself |
| `DiffEngine.RepeatedApiNameNotStable` | core/service.go:211-235 | with two blocks of one provider name, a snapshot's diff against itself reports the second block's extra event |
| `Store.Upsert` | core/storage/storage.go:32-48 | the key (user, tracking number) stays unique and ids stay distinct; a new key gets a fresh id; a never-stored tracking (id 0) only renames an existing row; a stored one overwrites snapshot, poll time and display name; ids never change; other rows are untouched |
| `Store.ListLastPolledBefore` | core/storage/storage.go:81-99 | the answer lists every row that was never polled or was polled before the cutoff (`IsDue`), once each, and nothing else |
| `Core.Reconcile` | core/service.go:139-182 | at most one update is appended and earlier ones are kept; the table changes only when the fetch succeeds, the diff is non-nil and the save succeeds, and then only the tracking's own row; a reported fetch failure publishes `ErrorUpdate`, which carries only the tracking's identity and the error (core/service.go:149-154) |
| `Core.FetchFailureSavesNothing` | core/service.go:145-157 | on a failed fetch nothing is saved and the tracking is untouched; exactly one update with only the identity fields and the error is published when errors are reported, none otherwise |
| `Core.NoChangeIsNoOp` | core/service.go:159-163 | a nil diff saves and publishes nothing and leaves the snapshot and poll time untouched |
| `Core.FailedSavePublishesNothing` | core/service.go:169-176 | when the save fails, store and update stream are untouched while the in-memory tracking already has the fetched snapshot and the poll time |
| `Core.SavedChangeIsPublished` | core/service.go:169-181 | when the save succeeds, the row holds the fetched snapshot and the poll time, and exactly one update with the diff's blocks and events, the tracking's identity and no error is published |
| `Core.PublishedOnlyAfterSave` | core/service.go:172-181 | an update without error is only published after a successful save has stored the fetched snapshot |
| `Core.RefetchIsNoOp` | core/service.go:159-172 | after a save, fetching the same non-empty, distinctly named snapshot again is a no-op |
| `Core.EmptyFetchRepublished` | core/service.go:202-206 | an empty fetch for an empty snapshot is saved and published, and the next such reconciliation publishes an empty update again |
| `Core.PollAll` | core/service.go:185-196 | reconciling the listed trackings one after the other keeps the store's invariant |
| `Core.PollPublishesNoErrors` | core/service.go:193-195 | a poll never publishes an error update, keeps earlier updates and publishes at most one update per listed tracking |
| `Core.PollKeepsUnsavedRows` | core/service.go:193-195 | a row that no listed reconciliation saves keeps its snapshot and poll time, so a row whose fetch failed stays due |
| `Core.PollRowOutcome` | core/service.go:193-195 | for each listed row, after the poll the row holds the fetched snapshot and the poll time if its reconciliation saved, and is unchanged otherwise |
| `Core.TrackSpec` | core/service.go:102-122 | a successful save leaves the tracking's key in the store, and the store's invariant holds |
| `Core.TrackPublishesWholeSnapshot` | core/service.go:109-117 | a track whose fetch and saves succeed publishes the whole fetched snapshot, even on a re-track, and the row holds it with the poll time, the new display name and its old or fresh id |
| `Core.TrackReportsFetchError` | core/service.go:114-117 | a track whose fetch fails publishes one error update; the row exists with the new display name and keeps any earlier snapshot and poll time |
| `Core.TrackThenIdenticalPollIsQuiet` | core/service.go:102-122 | after a track stored a non-empty, distinctly named snapshot, reconciling it against the same provider answer is a no-op |
| `Core.Tracking.constructor` | core/storage/db_structs.go:36-57 | a tracking read back from the store has the stored row's fields |
| `Core.Service.constructor` | core/service.go:22-37 | the service starts over a well-formed table with an empty update stream and the given polling interval |
| `Core.Service.SaveTracking` | core/storage/storage.go:26-79 | a failed save changes nothing and returns the error; otherwise the table is the upsert's and the saved tracking is returned |
| `Core.Service.FetchTrackingInfo` | core/service.go:139-182 | the new state and the mutated tracking are exactly those of `Reconcile` |
| `Core.Service.Poll` | core/service.go:185-196 | a failed listing changes nothing; otherwise the listing is exactly the due rows and the new state is that of reconciling them in listed order without reporting errors |
| `Core.Service.ReconcileListed` | core/service.go:193-195 | the loop over the listed trackings, each read back into a fresh in-memory tracking and reconciled in place, leaves exactly the state of reconciling them in listed order without reporting errors |
| `Core.Service.Track` | core/service.go:102-122 | returns the save error if any; the new state is `TrackSpec`'s |

## Left out

- Concurrency is not modelled: the goroutine and ticker loop of `Start`
  (core/service.go:79-96), cancellation, and races between a poll and a track on the
  same row.
- The unbuffered update channel blocks the publisher until the consumer receives.
  Publishing is modelled as appending to `updates`.
- `Track` starts the reconciliation with `go` and returns before it finishes. The model
  runs the reconciliation right after the save, inside `Track`.
- The HTTP and JSON provider clients (core/parcels_api.go, core/parcels_service.go) are
  not part of this model. Their answer is a parameter. `ErrNoTrackingInfo` is the
  constructor `NoTrackingInfo` and is handled like any other error.
- The SQL text, the global write mutex and the JSON and Unix-time conversions of the
  store are not modelled.
  - The upsert's "payload is empty" test is left out, because a marshalled snapshot is
    never empty.
  - The conversions are taken to round-trip.
  - Poll times are whole seconds throughout. The sub-second part of the in-memory poll
    time that the store drops is not modelled.
- Event times are integers compared with `==`. Go compares `time.Time` values with
  `==`, which also compares their locations; that detail is not modelled.
- The pass-through wrappers `GetTracking`, `ListTrackings` and `DeleteTracking`
  (core/service.go:124-134), `Updates`, and all logging are not modelled.
- At core/service.go:232 the appended pointer is `&fetchedTrackingEvent`. Under Go
  semantics before 1.22, every such pointer aliases the single loop variable. The model
  keeps the evident meaning, the event of that iteration, and does not reproduce the
  aliasing.
- The bot front end, its chat-id storage and the process start-up (bot/, cmd/) are not
  part of this model.
- The order in which the store lists due trackings is unspecified. The model's
  `ListLastPolledBefore` picks it by nondeterministic choice. `Poll` returns the listing
  it used as a ghost value.
- `Store.ListLastPolledBefore` models the evident intent of the query at
  core/storage/storage.go:84, `last_polled_at < cutoff`, with both sides in Unix
  seconds. As written, the column holds an integer (core/storage/db_structs.go:16, :31)
  while the bound argument is a `time.Time` (core/service.go:187), which the SQLite
  driver binds as text. SQLite orders every integer before every text, so the clause
  would likely select every row that was ever polled. The model does not capture this.
- `Core.PollAll` and `Core.Service.Poll` use one `now` for the cutoff and for the poll
  time stamped on every tracking of that poll. The code reads the clock again for each
  tracking (core/service.go:170), so later trackings of one poll get later stamps.
- The core calls the due-for-poll query `ListTrackingsLastPolledBefore`
  (core/service.go:50, :187), while core/storage/storage.go:81 defines it as
  `GetTrackingsLastPolledBefore`. The model takes core/storage/storage.go:81-99 to be
  that query.
