# Discocs, verified

Discocs keeps a music library in step with a Navidrome server, analyses its
tracks on remote workers, and recommends, mixes and queues them. This project
models the parts of it whose correctness is spread over many statements, and
proves what they keep over every input, every run and every interleaving.

- **Catalog sync** (`CatalogTables`, `CatalogSync`, `SyncTheorems`, `SyncTags`,
  `SyncHealing`, `Catalog`).
  The tables are finite maps; `Catalog` is the code, statement by statement,
  proved equal to steps on those tables; the theorems are about a full run with
  any pattern of per-song failures.
- **Release continuity** (`ReleaseContinuity`): which releases keep their
  identity when album ids change, and when the order of the updates matters.
- **Release repair** (`Totals`, `Folds`, `ReleaseRepair`, `RepairTheorems`,
  `ReleaseRepairRun`): merging empty releases in transactional batches.
- **Duplicate migration** (`PathSuffixes`, `DuplicateMigration`,
  `DuplicateMigrationRun`): the path-suffix index, and moving ids from
  placeholder tracks to local ones.
- **Analysis worker** (`WorkerState`, `Worker`, `BatchedInference`): the claim,
  download, preprocess, batch, submit and drain machine, and batched inference
  against inference on each track alone.
- **Greedy selection** (`Caps`, `MixSelection`, `MixPriority`, `SimilarTracks`,
  `Autoplay`, `AutoplayPool`): artist and release caps, maximality, priority of
  what is ranked better, order, and the autoplay queue.
- **Index cache** (`IndexCache`): double-checked locking as a state machine
  over single accesses to shared state.

Where the source mutates rows, dictionaries or fields, the model has a class or
a loop, proved against a function of the old state; the theorems are lemmas
about those functions. Environments are left free: per-song faults, faults
inside a batch, server answers, futures and the stop signal range over
everything they can be. The parameters `normalize` (path normalization),
`credits` (artists and release of a track), the predictors and the index
neighbours are arbitrary functions or values.

## Where code and documentation part

- *Repair is not one-to-one.* The documentation of the release repair says the
  old and the new release must be in a one-to-one relationship. The code counts
  targets only, so one empty release can be matched to two of them
  (`ReleaseRepairRun.MatchedTwice`). Then preferences follow the first match
  and session dictionaries the last one in its batch;
  `RepairTheorems.SizeFreeIff` shows that the batch size is without effect
  exactly when no empty release is matched twice.
- *Continuity depends on the order.* Whether a release keeps its identity can
  depend on which release the catalog shows first
  (`ReleaseContinuity.OrderDecides`, exactly: `ReleaseContinuity.OrderFreeIff`).
- *A song that is seen can stay missing.* A local track whose raw JSON changed
  is written but its missing flag is not cleared
  (`SyncTheorems.SeenButStillMissing`, exactly: `SyncTheorems.SeenAvailability`).
- *A repeated song id can lose a mapping.* When the song list of a live
  duplicate migration repeats an id, a target can end with no id at all
  (`DuplicateMigration.RepeatedIdLosesTarget`, exactly:
  `DuplicateMigration.LastMatchHolds`).
- *A track can be in the queue twice.* A play, skip, jump or hand-over of a
  removed item brings it back by its id, even when a refill has queued its track
  again (`Autoplay.ComesBackTwice`, exactly: `Autoplay.QueueStaysDistinctIff`).
- *Removed items are reported as added.* After a refill that added something,
  the rows compared with the listed ones include the removed ones
  (`Autoplay.RemovedIsReported`, exactly: `Autoplay.ReportedIff`).
- *A refill of an empty queue is one short*, since its first track takes the
  current place (`Autoplay.RefillSuffices`).
- *A worker in once mode can end with rows unsent.* It leaves its loop without
  the last submission, so whatever the buffers still hold is lost with its
  leases: rows short of a submit batch (`Worker.OnceLeavesRow`), and the failures
  of a head batch none of whose tasks went on, which is not followed by a
  submission. `Worker.WorkerRuntime.Run` says exactly when: unless something
  raises, every row was sent iff the worker drained or nothing is buffered.
- *A result can be returned for `k` below one*: the similar-track filter looks
  at `k` only after the first result (`SimilarTracks.ResultForNone`, exactly:
  `SimilarTracks.BoundKeptIff`).

## Model

| member | source | states |
|---|---|---|
| SyncTheorems.RelinkCarriesTrack | app/navidrome_sync.py:425-487 | after a full run the new id of a relinked pair is mapped to the track the old id had, and the old id is not mapped, exactly when the new id's song could be written |
| SyncTheorems.RelinkedIff | app/navidrome_sync.py:425-464 | an old id is relinked to a new one only if it left the catalog, alone among such ids has its source path, and the one song with that path has the new, unknown id; every such new id is relinked, and to that old one if no song id comes twice |
| SyncTheorems.RunKeepsWellFormed | app/navidrome_sync.py:128-206 | whatever songs fail, paths stay unique and ids injective on tracks; a mapped track is a local file or the placeholder of its own id except exactly for relinked placeholders whose song was not written |
| SyncTheorems.MissingExactly | app/navidrome_sync.py:198-206 | a track that existed before is missing afterwards iff its id was stale (known, neither seen nor relinked) or it was missing and no song touched it |
| SyncTheorems.MarkedIff | app/navidrome_sync.py:198-206 | a track that was not missing becomes missing iff some id mapped to it is not in the catalog and was not relinked |
| SyncTheorems.SeenAvailability | app/navidrome_sync.py:144-184 | the flag of a seen id's track is cleared iff one of its songs is unchanged or goes through an upsert of its placeholder |
| SyncTheorems.SeenNotStale | app/navidrome_sync.py:198-206 | the track of a seen or relinked id is never marked missing by the run |
| SyncTheorems.NothingIsLost | app/navidrome_sync.py:128-206 | no track disappears, every id that was not relinked keeps its track, new tracks are placeholders of new ids, and every written song ends with a row |
| SyncTheorems.RerunRelinksNothing | app/navidrome_sync.py:425-487 | after a run without failures a second run over the same catalog relinks nothing |
| SyncTheorems.StoresSongRaw | app/navidrome_sync.py:278-289 | an id whose songs agree ends with their raw JSON, album fields included, once one of them is written |
| SyncTheorems.InjectedFields | app/navidrome_sync.py:278-289 | a field of the injected raw JSON is the album's if the song names a listed album that has it, and else the song's own; nothing else changes |
| SyncTags.SeenTags | app/navidrome_sync.py:153-185 | after a full run with any failures the placeholder of a seen id has exactly the tags its songs agree on once one of them was handled, whichever branch it took, and the id is mapped to that row |
| SyncTags.OtherTags | app/navidrome_sync.py:153-206 | every other row keeps its tags: local files, and placeholders none of whose songs was handled |
| SyncTags.StepTags | app/navidrome_sync.py:159-185 | one song writes its tags to the row of its own placeholder, exactly if its id is new or it changed, and to no other row |
| SyncTags.AliasLeads | app/navidrome_sync.py:184-189 | an id with a song handled without failure is an alias of the track it is mapped to |
| SyncTheorems.RetiredAliasGone | app/navidrome_sync.py:472-478 | a relinked old id that was an alias of its own track is no alias afterwards |
| SyncTheorems.RawsStayNamed | app/navidrome_sync.py:310-323 | stored raw JSON keeps naming its own id, so the promise the theorems start from holds again for the next run |
| SyncTheorems.RunProgress | app/navidrome_sync.py:138-196 | the loop invariant, with every written id done, holds after the whole catalog |
| SyncTheorems.SeenButStillMissing | app/navidrome_sync.py:153-184 | catalogs, one for any two titles, in which a seen, mapped track is still missing after a run without failures |
| SyncHealing.HealsAfterFailures | app/navidrome_sync.py:98-215 | after any number of runs over one catalog, each with any failures, a run without failures ends with unique paths, injective ids and every placeholder at home |
| SyncHealing.StaysMendable | app/navidrome_sync.py:98-215 | whatever fails, a run leaves at most placeholders astray that the same catalog relinks again |
| SyncHealing.CleanRunMends | app/navidrome_sync.py:98-215 | from such tables a run without failures ends well formed |
| SyncHealing.RunFromHome | app/navidrome_sync.py:139-196 | such a run ends exactly as it would have with every placeholder at home |
| SyncHealing.LostAgain | app/navidrome_sync.py:425-487 | every lost id is relinked again, to the same new id |
| CatalogSync.StepKeeps | app/navidrome_sync.py:138-196 | handling one song, failing or not at any of its writes, keeps the invariant that ties live, retired and new ids to tracks |
| CatalogSync.FlagsAfter | app/navidrome_sync.py:637-651 | after all songs a flag is what it was unless some song touched the track, which clears it |
| CatalogSync.HolderOf | app/navidrome_sync.py:605-634 | the only other id that can hold a live id's track is the retired one it replaces, so the one-id-per-track delete never drops anyone else |
| CatalogRun.GroupByPath | app/navidrome_sync.py:441-445 | groups exactly the songs with id and path by path, in catalog order |
| CatalogRun.ListVanished | app/navidrome_sync.py:447-453 | lists exactly the vanished ids of each source path, none twice |
| CatalogRun.RotatedAt | app/navidrome_sync.py:457-464 | one vanished id and one song at a path means the id is rotated there, and otherwise no id with that path is |
| CatalogRun.Catalog.UpsertTrack | app/navidrome_sync.py:540-602 | refreshes the row at the path, or inserts one, and returns its id |
| CatalogRun.Catalog.UpsertExternalTrack | app/navidrome_sync.py:605-634 | frees the track from other ids and maps it to this one, or raises for an unknown track and changes nothing |
| CatalogRun.Catalog.MarkTrack | app/navidrome_sync.py:637-650 | sets or clears the flag of one track and nothing else |
| CatalogRun.Catalog.LoadMappings | app/navidrome_sync.py:325-354 | the snapshot joins every id with its track |
| CatalogRun.Catalog.RelinkRotatedSongIds | app/navidrome_sync.py:425-487 | the relinked pairs are the largest injection the rule allows, the rows are exactly those moved, and the snapshot is extended in step; raises only for a placeholder collision |
| CatalogRun.Catalog.SyncSong | app/navidrome_sync.py:139-196 | one song's branch, with its writes up to the fault: tags, external row, flag and alias |
| CatalogRun.Catalog.SyncAll | app/navidrome_sync.py:138-196 | the loop is the fold of the song steps, and collects the seen ids |
| CatalogRun.Catalog.SyncCatalog | app/navidrome_sync.py:98-215 | a whole sync, with or without limit and stale marking, is a full run in the sense of the theorems, or rolls back |
| CatalogRun.Catalog.MarkStale | app/navidrome_sync.py:198-206 | marks exactly the tracks of the stale ids and counts the ids |
| ReleaseContinuity.TurnsKeepUnique | app/navidrome_sync.py:381-422 | identity keys stay unique after every update, releases neither come nor go, and only one-to-one releases change, to their own album's key |
| ReleaseContinuity.TurnsSettled | app/navidrome_sync.py:381-422 | without a hand-over exactly the free targets are taken, whatever the order |
| ReleaseContinuity.TargetsInjective | app/navidrome_sync.py:368-386 | no two releases have the same target album |
| ReleaseContinuity.OrderFreeIff | app/navidrome_sync.py:381-422 | the outcome is the same for every order of the updates iff no eligible release wants a key another eligible release is free to leave |
| ReleaseContinuity.OrderDecides | app/navidrome_sync.py:381-422 | two songs whose order in the catalog decides whether a release keeps its identity |
| ReleaseContinuity.FirstSeenOrders | app/navidrome_sync.py:368-377 | the order of first appearance lists every release shown, none twice, each before those the catalog shows only later |
| ReleaseContinuity.SightingsAre | app/navidrome_sync.py:370-377 | exactly the songs with an album whose id is known and whose track has a release are looked at, with that album and release |
| ReleaseContinuity.SightingsInOrder | app/navidrome_sync.py:370-377 | they are looked at in the order of the catalog |
| ReleaseContinuity.RelinkedIsSeen | app/navidrome_sync.py:129-136 | a relinked song is looked at with the release its track had before |
| ReleaseContinuity.Releases.Group | app/navidrome_sync.py:368-377 | over the songs that name an album and map to a track with a release: the two dictionaries are exact, and releases come in order of first appearance |
| ReleaseContinuity.Releases.PreserveReleaseContinuity | app/navidrome_sync.py:357-422 | takes over exactly by the one-to-one rule, in order of first appearance, keeps keys unique, and returns the number of changed keys |
| RepairTheorems.PreferencesMove | app/navidrome_migration.py:254-296 | after any number of committed batches, per user and column, totals are conserved, each release has the sum of what was merged into it, and liked is the OR |
| RepairTheorems.TimesMove | app/navidrome_migration.py:254-296 | after any number of committed batches each time of a row is the latest of the rows that were merged into it |
| RepairTheorems.ReferencesMove | app/navidrome_migration.py:201-244 | the committed candidates' releases are deleted and no other; events, queue items, external ids and session sources name where theirs went |
| RepairTheorems.NothingNamesTheDead | app/navidrome_migration.py:188-247 | no preference, event, queue item, external id, session source or play dictionary names a merged release, and its target is still there |
| RepairTheorems.SessionFollows | app/navidrome_migration.py:213-223 | a session that started from a merged release takes id and title of the first candidate that names it, and other sessions stay |
| RepairTheorems.PlaysPushForward | app/navidrome_migration.py:318-329 | a batch turns a play dictionary into its pushforward along the release map iff no count meets a value that is neither number nor null |
| RepairTheorems.SessionPlaysKept | app/navidrome_migration.py:299-334 | over all batches a dictionary of numbers and nulls keeps its total and goes where the dictionaries send it |
| RepairTheorems.MovesExactly | app/navidrome_migration.py:318-329 | key by key: the rewritten value is the moved sum iff no clash happens at that key |
| RepairTheorems.OneRepair | app/navidrome_migration.py:176-251 | with distinct empty releases all batches are one repair of the candidates they hold |
| RepairTheorems.SizeFreeIff | app/navidrome_migration.py:184-193 | the tables after the same candidates do not depend on the batch size iff no empty release is matched twice |
| ReleaseRepair.BatchesAre | app/navidrome_migration.py:184-247 | committed batches are all their merges in order followed by all their dictionaries in order |
| ReleaseRepair.MergeUsersStep | app/navidrome_migration.py:264-296 | the row-by-row merge equals its closed form over any set of users |
| ReleaseRepair.Latest | app/navidrome_migration.py:337-339 | the later of two times, where an absent one yields |
| Totals.Pushforward | app/navidrome_migration.py:254-296 | moving weights pair by pair gives each key the sum of all keys that end there |
| Totals.ShiftEachKeepsTotal | app/navidrome_migration.py:254-296 | moving weights keeps their sum |
| ReleaseRepairRun.MatchedAreCandidates | app/navidrome_migration.py:109-142 | matched candidates lead from releases without tracks to releases with tracks, no target twice |
| ReleaseRepairRun.MatchedIff | app/navidrome_migration.py:145-172 | a row is matched iff its target occurs once among the rows, both paths are there, and they are equal once normalized |
| ReleaseRepairRun.MatchedInOrder | app/navidrome_migration.py:145-172 | matched rows keep the order of the rows |
| ReleaseRepairRun.CountedRows | app/navidrome_migration.py:147-161 | the ambiguous rows are those whose target another row has; the mismatched ones have a target of their own and an absent path or two different ones |
| ReleaseRepairRun.UnmatchedStay | app/navidrome_migration.py:145-248 | over any number of batches a release none of whose rows is matched is not deleted, and in the end all others with a row are |
| ReleaseRepairRun.OtherPathStays | app/navidrome_migration.py:153-161 | two rows with targets of their own, of which only the one with equal paths is matched |
| ReleaseRepairRun.MatchedTwice | app/navidrome_migration.py:145-172 | rows in which one empty release, remembering two songs, is matched to two targets, so that the batch size matters |
| ReleaseRepairRun.ReleaseRepairCandidates | app/navidrome_migration.py:140-173 | the loops compute the matched rows in order and the two counts, which add up with them to the number of rows |
| ReleaseRepairRun.RewritePlays | app/navidrome_migration.py:317-330 | the dictionary loop; a row is rewritten exactly when its dictionary names a merged release |
| ReleaseRepairRun.Library.MergeReleasePreference | app/navidrome_migration.py:254-296 | the loop over users, in any order, equals the closed form |
| ReleaseRepairRun.Library.MergeCandidate | app/navidrome_migration.py:194-244 | the statements for one candidate, and the deleted row count |
| ReleaseRepairRun.Library.RewriteSessionReleaseStates | app/navidrome_migration.py:299-334 | rewrites exactly the sessions that have a play dictionary |
| ReleaseRepairRun.Library.RepairBatch | app/navidrome_migration.py:186-248 | a batch commits as a whole or leaves the tables as they were |
| ReleaseRepairRun.Library.ApplyReleaseRepairs | app/navidrome_migration.py:176-251 | on success all batches are committed and the count is the number of releases gone; a failure leaves exactly the batches before it |
| ReleaseRepairRun.Library.RepairNavidromeEmptyReleases | app/navidrome_migration.py:67-102 | a dry run changes nothing; otherwise the matched candidates are repaired in batches of at least one; a release without a matched row is never deleted, and on success all the others with a row are |
| Folds.BatchesAreOneFold | app/navidrome_migration.py:463-500 | batches of any size are one fold over the elements they hold |
| PathSuffixes.TailsAreEndings | app/navidrome_migration.py:515-521 | the keys entered for a path are exactly the texts its joined components end with at a slash |
| PathSuffixes.PartsJoin | app/navidrome_migration.py:517 | the components of two texts joined by a slash are those of the first, then those of the second |
| PathSuffixes.PartsWhole | app/navidrome_migration.py:517 | a text without a slash is its only component, and the empty text has none |
| PathSuffixes.PartsRoundTrip | app/navidrome_migration.py:517-519 | joining the components of a path without empty ones gives the path back, less a slash in front |
| PathSuffixes.TextEndings | app/navidrome_migration.py:517-522 | such a path is entered under a key iff it is the key or ends with a slash and the key |
| PathSuffixes.IndexFinds | app/navidrome_migration.py:504-523 | the list of a key holds a track with such a path iff the path is the key or ends with a slash and the key |
| PathSuffixes.LocalTrackSuffixIndex | app/navidrome_migration.py:504-523 | every key's list is what a linear scan in row order finds, each track once; for paths without empty components that is read off the text of path and key |
| PathSuffixes.ScanLists | app/navidrome_migration.py:504-523 | a scan lists exactly the matching tracks, none twice |
| DuplicateMigration.HitIsUniqueFit | app/navidrome_migration.py:357-368 | a candidate is matched to a track iff that local track alone fits its path |
| DuplicateMigration.FitsText | app/navidrome_migration.py:357-361 | a track fits iff its path is the candidate's relative path or ends with a slash and that |
| DuplicateMigration.HitsCount | app/navidrome_migration.py:362-367 | there is no hit iff no local track fits, and several iff two do |
| DuplicateMigration.PlannedIff | app/navidrome_migration.py:354-363 | a match is planned iff it is for a candidate that this local track alone fits |
| DuplicateMigration.PlannedIsPlan | app/navidrome_migration.py:354-368 | the matches lead from placeholders to local tracks |
| DuplicateMigration.RemapsKeep | app/navidrome_migration.py:468-495 | any list of matches onto local tracks keeps paths unique, ids injective and at home, and every local track as it was |
| DuplicateMigration.DuplicatesGo | app/navidrome_migration.py:486-494 | exactly the matched placeholder tracks are deleted |
| DuplicateMigration.UnmatchedRow | app/navidrome_migration.py:469-476 | an id that is not matched keeps its row iff no match targets its track |
| DuplicateMigration.MatchedRow | app/navidrome_migration.py:469-485 | a matched id keeps its row iff no other id takes its target between or after its matches, and then is on its last target |
| DuplicateMigration.LastMatchHolds | app/navidrome_migration.py:453-501 | a target ends with its last matched id, alone, iff that id's matches are unbroken and end there |
| DuplicateMigration.DistinctHolds | app/navidrome_migration.py:400-419 | with every id listed once that condition holds for every target's last match |
| DuplicateMigration.RepeatedIdLosesTarget | app/navidrome_migration.py:422-450 | with a repeated id a target can end with no id at all |
| DuplicateMigration.MigrationInBatches | app/navidrome_migration.py:453-501 | committed batches of any size are one sequence of matches, and what the sequence keeps holds after each of them |
| DuplicateMigrationRun.FindMatches | app/navidrome_migration.py:354-368 | matched are, in order, the candidates with one hit; the counts are those of the others |
| DuplicateMigrationRun.Library.RemapMatch | app/navidrome_migration.py:468-495 | the three statements with the cascade of the last one, and the deleted row count |
| DuplicateMigrationRun.Library.ApplyMatches | app/navidrome_migration.py:453-501 | on success all matches are applied and counted; a failure leaves exactly the batches before it |
| DuplicateMigrationRun.Library.MigrateNavidromeDuplicateTracks | app/navidrome_migration.py:342-390 | a dry run changes nothing; otherwise the unique fits are applied in batches, keeping the tables well formed and local tracks as they were |
| WorkerState.OpenLeases | app/cli.py:1386-1447 | while not draining and with every submission answered, an open lease has its file and is staged, buffered, or was called inactive by an answer that the check right after it did not confirm |
| WorkerState.EveryLease | app/cli.py:1386-1447 | where each lease is between two handlers, in any run: acknowledged because a row of it was sent or the server confirmed that it is inactive, or open for one of the reasons the code has |
| WorkerState.SentWasProduced | app/cli.py:1194-1243 | what was sent about a task was produced before |
| WorkerState.ProducedAndOpen | app/cli.py:1184-1243 | a task with a row is acknowledged, has a row buffered, or its row was sent and not answered |
| WorkerState.DroppedGood | app/cli.py:1607-1611 | letting a task go keeps the books if the worker drains or the server called the task inactive and did not confirm it |
| WorkerState.HandledOnce | app/cli.py:1752-1754 | a handled future was handed out, is in no map, and was handled once |
| WorkerState.NeverAgain | app/cli.py:1929-1978 | a handled future is never pending again |
| WorkerState.ProducedGood | app/cli.py:1636-1646 | appending a row keeps the books: files match open leases, nothing is lost, what was produced is waiting or sent |
| WorkerState.ClosedGood | app/cli.py:1503-1526 | acknowledging a task the server confirmed to be inactive and releasing its file keeps the books |
| WorkerState.FlushedGood | app/cli.py:1194-1243 | an answered submission empties the buffers and acknowledges exactly the answered ids |
| WorkerState.HalfFlushedGood | app/cli.py:1217-1232 | when the results were posted and posting the failures raises, the answers are lost but no task is forgotten |
| WorkerState.LeasedGood | app/cli.py:1552-1569 | leasing an id that was not acknowledged keeps the books and takes one place |
| WorkerState.LeaseKeepsOwnedIff | app/cli.py:1552-1556 | files match open leases after a claim iff the worker had not acknowledged the id |
| WorkerState.TookFutureGood | app/cli.py:1752-1754 | a done future's task is in hand and makes room for one more |
| WorkerState.TookModelGood | app/cli.py:1595-1606 | taking a model's items off the ready list puts exactly their tasks in hand |
| WorkerState.TookHeadsGood | app/cli.py:1684-1685 | taking the first head tasks puts exactly them in hand |
| WorkerState.StepJoin | app/cli.py:1929-1978 | handlers compose: books, monotony, kept futures and places add up over any sequence |
| Worker.WorkerRuntime.constructor | app/cli.py:1393-1460 | the worker starts with nothing leased and balanced books |
| Worker.WorkerRuntime.PostSubmit | app/cli.py:899-921 | retries while the server is busy or out of reach, raises on other errors |
| Worker.WorkerRuntime.CloseInactiveTask | app/cli.py:1503-1526 | closes iff the server answers inactive or unknown |
| Worker.WorkerRuntime.LetGoOf | app/cli.py:1609-1611 | a task is let go only by a drain or after the answer that it is inactive, and always after a state check, which closes it if it confirms |
| Worker.WorkerRuntime.GoesOn | app/cli.py:1607-1612 | a task called active stays in hand; one that is let go was turned down or the worker drains |
| Worker.WorkerRuntime.SubmitWorkerBuffers | app/cli.py:1184-1243 | submits all buffers, or raises leaving them as they were or half submitted |
| Worker.WorkerRuntime.FlushWorkerBuffers | app/cli.py:1484-1501 | empties the buffers, and drains iff enough tasks are acknowledged |
| Worker.WorkerRuntime.MaybeFlush | app/cli.py:1477-1482 | does nothing below the batch size, and never leaves a full batch waiting |
| Worker.WorkerRuntime.ClaimMore | app/cli.py:1528-1569 | asks exactly when the worker does not drain and has a free place, for the smaller of batch size and free places; leases at most that, and nothing while draining or when the request raises |
| Worker.WorkerRuntime.MaybeClaimMore | app/cli.py:1844-1849 | asks for tasks exactly when the worker does not drain and has a free place |
| Worker.WorkerRuntime.SelectActive | app/cli.py:1607-1615 | exactly the items kept go on, in order: each was called active; each of the others was called inactive, or the worker drains |
| Worker.WorkerRuntime.AppendVectors | app/cli.py:1633-1646 | the rows appended are, in order, what the model gives for each task's patches alone |
| Worker.WorkerRuntime.ProcessModelItems | app/cli.py:1596-1674 | without an exception the log grows by the own vectors of exactly the items called active; with one, by some items' vectors and then one row for every item; unless it raises or no item was active, less than a batch is left in the buffers |
| Worker.WorkerRuntime.ProcessReadyEmbeddingBatches | app/cli.py:1591-1674 | exactly the items of the models with enough patches, or of all on a flush, leave the list; without such a model nothing happens |
| Worker.WorkerRuntime.RipeIff | app/cli.py:1599-1602 | a model is ripe iff it has an item and the patches of its items fill the ready batches |
| Worker.WorkerRuntime.TakeHeads | app/cli.py:1683-1750 | a head batch logs failures, then the own head outputs of exactly the tasks that go on, or a failure for each; a task is given up only if it was not active or the worker drains; unless it raises or no task went on, less than a submit batch is left in the buffers |
| Worker.WorkerRuntime.SelectHead | app/cli.py:1690-1711 | a task called active goes on with its patches unless extracting them raises; otherwise it fails, or was turned down by the server or the drain |
| Worker.WorkerRuntime.ProcessReadyHeadBatches | app/cli.py:1676-1750 | below the target and without a flush nothing happens; otherwise the first tasks up to the target leave the list |
| Worker.WorkerRuntime.FailTask | app/cli.py:1335-1345 | a conflict closes the task if the server confirms it, anything else records a failure |
| Worker.WorkerRuntime.FallBack | app/cli.py:1348-1383 | exactly one row: a fallback vector or a failure |
| Worker.WorkerRuntime.HandleEmbeddingFuture | app/cli.py:1752-1792 | the future leaves its map for good; its task was turned down, or called active and put on the ready list, or gets a last row; nothing is leased; unless it raises or gives the task up, less than a batch is left in the buffers |
| Worker.WorkerRuntime.TryEmbedding | app/cli.py:1757-1771 | without an exception a task called active joins the ready list and the ripe models run |
| Worker.WorkerRuntime.HandleCpuFuture | app/cli.py:1794-1842 | the future leaves its map for good and frees its place; its task gets one analysis or failure row, or was turned down, or the worker drains; after a row, unless it raises, less than a batch is left in the buffers |
| Worker.WorkerRuntime.DecideCpu | app/cli.py:1798-1841 | one analysis or failure row, or none when draining or confirmed inactive |
| Worker.WorkerRuntime.RouteEmbedding | app/cli.py:1891-1912 | preprocesses for the GPU exactly the direct models, embeds the other known ones at once, fails unknown ones |
| Worker.WorkerRuntime.HandleDownloadFuture | app/cli.py:1851-1927 | the future leaves its map for good; a complete download goes where its model says, and nowhere only during a drain; then flushes and claims, never beyond the capacity; after a row, unless it raises, less than a batch is left in the buffers |
| Worker.WorkerRuntime.FlushThenClaim | app/cli.py:1926-1927 | a full batch is submitted, then tasks are asked for exactly with a free place and no drain |
| Worker.WorkerRuntime.TryDownload | app/cli.py:1856-1915 | a download completed while not draining reaches the next stage of its model or becomes a row |
| Worker.WorkerRuntime.HandleAll | app/cli.py:1965-1972 | the done futures are handled in order, each once, unless one raises; each was in a map at its turn and is in none afterwards, and no other future leaves its map |
| Worker.WorkerRuntime.RunAndClaim | app/cli.py:1931-1941 | the first half of a turn: the ripe batches run and tasks are claimed |
| Worker.WorkerRuntime.Cycle | app/cli.py:1931-1972 | one turn keeps books and capacity; the ripe batches run; tasks are asked for exactly with a free place and no drain, and those given are leased; then either some pending futures are handled, exactly those waited for and in order unless something raises, or everything ready is flushed, or the loop finishes, exactly in once mode with nothing in flight |
| Worker.WorkerRuntime.RunLoop | app/cli.py:1929-1978 | over any number of turns books and capacity hold and no handled future is pending again; the loop ends because something raised, because the worker drains, and then the caller submits, or in once mode with nothing in flight |
| Worker.WorkerRuntime.Run | app/cli.py:1929-2012 | over any number of turns books and capacity hold and draining stops leasing; a worker that drains and raises nothing has sent every row it ever produced; the released leases are exactly those never acknowledged and those whose file is held, and a released task has no row, or its row was sent and not answered, or is still buffered because something raised or the loop finished in once mode, where nothing more is submitted |
| Worker.OnceLeavesRow | app/cli.py:1944-1951 | an analyzed task with which a loop in once mode ends while its row is not sent |
| BatchedInference.PredictPatches | app/embedder.py:405-418 | padding the last batch and trimming its output predicts every patch once; a batch size below one is an error |
| BatchedInference.PredictUnpadded | app/embedder.py:420-424 | accepts exactly the model's batch size |
| BatchedInference.Padding | app/cli.py:1620-1624 | the padding is less than a batch and completes a whole number of batches |
| BatchedInference.SliceIsAlone | app/cli.py:1634-1638 | a track's slice of the joint prediction is its prediction alone |
| BatchedInference.InferTogether | app/cli.py:1617-1642 | concatenating, padding, chunking, trimming and slicing give every track the rows it gets alone, for any grouping; fails iff sizes do not fit or there is no patch |
| BatchedInference.AnalyzeAlone | app/head_pack.py:150-151 | the heads' outputs for one track in order |
| BatchedInference.AnalyzeTogether | app/head_pack.py:153-171 | the batch gives each track the outputs it gets alone, in the order of the heads; fails iff some track has no patch |
| Caps.WithinCap | app/mixes.py:588-593 | a label that is used stays within its cap together with what it was credited before |
| Caps.BlockedStays | app/mixes.py:588-593 | what is blocked stays blocked as more tracks are taken |
| Caps.BlockedIff | app/mixes.py:588-593 | blocked means that an artist of the track was credited as often as its cap, or its release has as many tracks as its cap |
| Caps.AdmittedKeepCaps | app/mixes.py:588-612 | tracks that were each below every cap when they were taken keep the artist cap for every artist and the release cap for every release |
| MixSelection.SelectionWithinCaps | app/mixes.py:565-656 | every artist and release stays within its cap over both loops |
| MixSelection.SelectionIsMaximal | app/mixes.py:565-656 | in a mix that is not full every left-out candidate is excluded or has an artist or release at its cap in the mix |
| MixSelection.DiscoveryFirst | app/mixes.py:576-656 | known tracks beyond the quota come only when every new candidate was chosen, excluded or is at a cap |
| MixSelection.SelectionIsChosen | app/mixes.py:576-656 | a mix holds candidates only, none used before in strict mode, and no more than its size |
| MixSelection.SelectionDistinct | app/mixes.py:622-656 | no track is chosen twice |
| MixSelection.ScanAccounts | app/mixes.py:576-620 | until the mix is full every candidate is chosen or counted under one reason |
| MixSelection.GenerateRegionItems | app/mixes.py:565-656 | the two loops with their breaks compute the selection |
| MixPriority.SelectionIsGreedy | app/mixes.py:564-656 | the mix is chosen best first: at each candidate's turn only better ranked tracks are in the mix, and it comes next unless these fill the mix, it is excluded, or it is at a cap among them; known ones beyond the quota have their turn again, in order, after all others |
| MixPriority.ReasonsCounted | app/mixes.py:579-593 | each counter counts exactly the candidates skipped for its reason |
| MixSelection.SequencePermutes | app/mixes.py:686-706 | sequencing only reorders |
| MixSelection.ConflictsAreForced | app/mixes.py:691-702 | a track conflicts with the one before it only if every later one would have |
| MixPriority.ConflictsIff | app/mixes.py:697 | two neighbours conflict iff they share an artist or have the same release or none |
| MixPriority.SequenceWaits | app/mixes.py:686-706 | a better ranked track is put off only while it conflicts, and only for one that does not |
| MixPriority.MixIsGreedy | app/mixes.py:565-706 | a region's mix is a greedy choice of its candidates in such a sequence |
| MixSelection.SequenceItems | app/mixes.py:686-706 | the loop gives that sequence, with positions from zero |
| MixSelection.GenerateMixes | app/mixes.py:225-262 | the saved mixes are, in order, the non-empty mixes of the regions, each made of the candidates that avoid what was used before |
| MixSelection.SavedFrom | app/mixes.py:225-256 | every saved mix is the mix of one region |
| MixPriority.SavedAreGreedy | app/mixes.py:225-256 | every saved mix is a greedy choice of its region's candidates, given what was used before |
| MixSelection.SavedAreDisjoint | app/mixes.py:225-262 | in strict mode saved mixes share no track and their sizes sum to the number of used tracks; otherwise none counts as used |
| MixSelection.MixLimits | app/mixes.py:565-706 | a region's mix respects every cap, leaves out only excluded or blocked candidates unless it is full, and has forced conflicts only, with positions from zero |
| SimilarTracks.ResultsWithinCaps | app/recommender.py:213-228 | no two results have the same song, and no artist is on more results than the cap |
| SimilarTracks.ResultsInOrder | app/recommender.py:190-239 | results keep the neighbours' order and number at most `k`, or one for `k` below one |
| SimilarTracks.BoundKeptIff | app/recommender.py:235-239 | at most `k` results, none for `k` below one, iff `k` is positive or no neighbour can be the first result |
| SimilarTracks.EmptyIff | app/recommender.py:190-239 | there is no result iff every neighbour fails a test or no artist may be credited at all |
| SimilarTracks.ResultForNone | app/recommender.py:172-239 | two neighbours and `k` zero for which a track is returned |
| SimilarTracks.ResultsAreMaximal | app/recommender.py:190-239 | without a cut-off every other neighbour failed a test, has the song of a result, or an artist at the cap |
| SimilarTracks.NearestFirst | app/recommender.py:190-239 | at each neighbour's turn only nearer ones are results, and it comes next unless these fill the list, it fails a test, or its song or an artist is used up among them |
| SimilarTracks.ReasonsCounted | app/recommender.py:190-228 | each counter counts exactly the neighbours skipped for its reason |
| SimilarTracks.NeighboursAccounted | app/recommender.py:183-239 | every scanned neighbour is a result or counted under one reason |
| SimilarTracks.FilterNeighbours | app/recommender.py:190-239 | the loop with its break computes the filter |
| Autoplay.SessionWithinCaps | app/autoplay.py:309-346 | the items of the session that autoplay added and that are not removed, with the kept tracks, keep every artist and release of a kept track within its cap |
| Autoplay.CapsAreMaximal | app/autoplay.py:326-342 | a rejected candidate has an artist or release at its cap in the queue and the kept tracks |
| Autoplay.CountedTell | app/autoplay.py:317-324 | what the first loop counts are the items that autoplay added and that are not removed |
| Autoplay.BestFirst | app/autoplay.py:326-342 | at each candidate's turn only better ones are kept, and it comes next unless it is at a cap with them and the queue |
| AutoplayPool.ReasonsCounted | app/autoplay.py:326-346 | each counter counts exactly the candidates rejected for its cap |
| Autoplay.CandidatesAccounted | app/autoplay.py:323-346 | candidates are kept in order or counted under one cap |
| Autoplay.ApplyAutoplayCaps | app/autoplay.py:309-346 | both loops compute that filter |
| Autoplay.PoolIsNew | app/autoplay.py:380-391 | the pool holds available tracks that are not in the queue, none twice, at most the candidate count |
| AutoplayPool.UsableAre | app/autoplay.py:501-524 | a stored track is usable iff its entry is well formed, it is available, and it is not in the queue; usable ones keep their order |
| AutoplayPool.PoolInOrder | app/autoplay.py:364-391 | the pool takes usable stored tracks in order, then new candidates in order if the usable ones are fewer than needed or below the mark, each track once, until it is full |
| AutoplayPool.CandidatesInOrder | app/autoplay.py:196-306 | at the turn of a ranked neighbour that is available, not in the queue and not excluded, only better ones are candidates, and it comes next unless it is at a cap |
| AutoplayPool.ListedAre | app/store/playback.py:392-408 | the items shown are those not removed, in order |
| AutoplayPool.NeededIs | app/autoplay.py:417-426 | needed is what the queued items shown after the current one, or after the first one, fall short of the buffer |
| Autoplay.RefillSplits | app/autoplay.py:391-398 | the pool splits exactly into added items and stored pool, the smaller of need and pool size being added |
| Autoplay.QueueStaysDistinctIff | app/autoplay.py:349-407 | over any run of refills, plays, skips, jumps and removals no track is ever in the queue twice iff no removed item is brought back while its track is in the queue again |
| Autoplay.MarkDistinctIff | app/store/playback.py:692-722 | giving an item a status keeps the tracks distinct iff the item is then removed, was not removed, or its track is not in the queue |
| Autoplay.ComesBackTwice | app/store/playback.py:903-941 | a run of four steps after which a track is in the queue twice |
| Autoplay.RefillKeepsDistinct | app/autoplay.py:349-398 | a refill never adds a track that is in the queue, nor one twice |
| Autoplay.ReportedAre | app/autoplay.py:394-396 | the added items a refill reports are none if it drew none, and else every removed item of the session and the new ones |
| Autoplay.ReportedIff | app/autoplay.py:394-407 | the report and its count are right iff nothing was drawn or no item of the session is removed |
| Autoplay.RemovedIsReported | app/autoplay.py:394-396 | a session with one removed item, which a refill reports as added |
| Autoplay.NeededAfter | app/autoplay.py:417-426 | what is still needed after a refill, for a queue with items and for an empty one |
| Autoplay.RefillSuffices | app/autoplay.py:417-426 | a refill with enough in the pool leaves nothing needed iff the queue was not empty |
| Autoplay.DedupeItems | app/autoplay.py:527-539 | keeps the first entry of each track |
| Autoplay.ValidPoolItems | app/autoplay.py:501-524 | the usable, available entries outside the queue, each track once |
| Autoplay.BuildPool | app/autoplay.py:364-391 | the stored pool, topped up when it is short |
| Autoplay.Session.RefillAutoplayQueue | app/autoplay.py:349-407 | the queue and the stored pool after a refill, the rows it reports as added, and distinct tracks stay distinct |
| IndexCache.FreshIff | app/recommender.py:313-353 | in every run every returned index is no older than the file at the call's stat and no newer than at its return, iff modification time and size together never recur |
| IndexCache.NextOrdered | app/recommender.py:313-353 | every step keeps stamps older than indexes and both no newer than the file |
| IndexCache.RecurringIsStale | app/recommender.py:316-320 | two versions with one stamp give a run that returns an outdated index |
| IndexCache.LoadedAtMostOnce | app/recommender.py:330-353 | from any moment without a call for the key under way, and while its file stays in place and no load of it fails: it is loaded at most once more, not at all if the cache is current, and one caller at a time is in the locked block |

## Left out

- The SQL text, SQLite locking and retries: tables are finite maps, statements their visible effects, transactions all or nothing.
- Counters of a sync other than seen and stale ids (imported, updated, failed), and logging and progress callbacks everywhere.
- The sidecar rows a sync writes beyond the id alias, and the play state it copies from the server.
- Play state refresh, pushing likes, and rewriting of reconciled files: single-pass copies.
- Floating point: scores and play counts are reals, similarities only an order; the low-water mark of the autoplay pool is any number.
- JSON text: raw JSON is a record with its id, path, album and other fields; a play dictionary has release ids as keys and numbers, booleans, null or something else as values.
- Path normalization and case folding, metadata keys and artist splitting, same-album and same-track tests: arbitrary functions or verdicts.
- HTTP, ffmpeg, TensorFlow and Essentia: predictors are row functions, servers and futures arbitrary.
- A second stop signal in the middle of a handler; the first one may arrive whenever the worker looks at its drain flag.
- An unbounded worker loop: runs have any finite number of turns.
- SyncHealing.HealsAfterFailures: for catalogs that give each song id one path; with two, the order in which the database returns its rows, which the code leaves open, decides which old id is relinked first.
- Queue edits by hand (append, replace, reorder): the runs of the autoplay queue are refills and status changes.
- CatalogRun.Catalog.UpsertTrack: without the flag that says whether the row changed, which only feeds a counter, and without the reconciliation of a rewritten file.
- CatalogRun.Catalog.LoadMappings: without the release column, which only release continuity reads; there the releases of tracks are a table of their own.
- CatalogRun.Catalog.SyncCatalog: the continuity call is a separate model, since it writes release keys only, which no other step modelled here reads; the imported, updated and failed counters are not part of it.
- Worker.WorkerRuntime.PostSubmit: that a server which stays busy makes the worker wait for ever is not modelled, since retries are collapsed into the final answer.
- Worker.WorkerRuntime.ProcessModelItems: a task can get two rows when an exception strikes after some vectors were appended, because the code appends again for every item; the contract says so and does not claim exactly one.
- Index files replaced piecemeal: a load sees one version.
- The clustering of taste regions, anchor choice, candidate scoring and sorting: candidates come ranked.
- The login rate limiter and the streaming archive: they would only add easy members.
