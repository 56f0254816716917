# A Dafny model of gh-stories

gh-stories shows 24-hour image and video stories to GitHub users, in a browser and in a terminal. This project
models the parts of it whose correctness depends on many participants, many steps or arbitrary input, and proves
what they promise.

**The story pipeline.** `Protocol` is a state machine over the tables (upload intents, media jobs, stories,
variants, cleanup jobs, views) and the object store. Each transaction and each object-store call is one atomic
step. A media or cleanup handler keeps between its steps only what its code keeps in local variables; any number
of handlers interleave, crash, or run on after their lease has been given to another. Nothing in the model makes a
lease exclusive. `Transactions` says what each transaction does to the tables, `StoryStore` and `Objects` are the
same operations as classes that update their fields statement by statement, `Worker` is the worker's code on top
of them, with every failure exit, and each of its methods is a run of the state machine. `PipelineInvariant`,
`PipelineSteps` and `PipelineSafety` carry the invariant; `PipelineTheorems` states the promises, and
`Causes` says of every table which steps alone change its rows, `ItemHistory` follows one item over whole runs,
`OrphanedMedia` says exactly which outputs are ever scheduled for deletion, `Originals` how long an upload is kept
for a retry, and `MediaBytes` whose bytes stand behind a media key. `ShortRun` is the run their witnesses share.

**Who sees what.** `Visibility` is the one access predicate. `Feed` defines what the ranking query, the author
query and the ring query may answer and contains the grouping loops; `FeedTheorems` proves the order, the groups
and the agreement of the three, `FeedExistence` that there are such answers. `CleanupInvisible` and
`CleanupRetention` show exactly when a cleanup pass cannot be noticed by any reader; `InterleavedPass` takes the
steps of passes out of a run in which everyone else goes on meanwhile.

**Follows.** `FollowGraph` has follow, unfollow, block and import with tombstones and provenance; `Following` is
the paged fetch from GitHub and the whole import request; `Access` joins follows, blocks and the life cycle of an
item to visibility, over whole runs.

**One-shot logins.** `PendingLogin` and `DeviceLogin` are the browser-approved and the GitHub device login (RFC
8628), as classes and as machines whose callers interleave between single store calls.

**The rate limiter.** `RateLimit` has the token buckets with their garbage collection, over real-valued tokens and
integer nanoseconds.

**Bytes for terminals, bytes from uploads.** `Sanitize` over `Utf8`; `Kitty`, `ITerm` and `Tmux` over `Base64` and
`Wire`, each with a reader that models the receiving terminal; `Gif` and `WebP` with the format's serializer;
`FitCells` for the placement of a picture.

A clock is always a parameter. Randomness appears as ids and tokens that are fresh when drawn. What GitHub, a
decoder, a failing database or a failing object store answers is an arbitrary choice.

## Where code and documentation differ

The model follows the code.

- A comment in internal/terminal/sanitize.go:95-101 says that U+0080 to U+009F in valid UTF-8 are caught by the
  branch for raw bytes 0x80 to 0x9F. Their lead byte is 0xC2, which takes the default branch: they are printed
  (`Sanitize.C1SurvivesExactly`).
- The comment on SanitizeMultiline (internal/terminal/sanitize.go:46-50) promises a single LF for a CRLF. The CR
  is replaced by U+FFFD wherever the scan steps on it (`Sanitize.CarriageReturnIsReplaced`).
- Login rows carry an expiry, which bars approval only: a token parked in time is handed over later too
  (`DeviceLogin.CollectableExactly`, with a run in `DeviceLogin.CollectedAfterExpiry`; `PendingLogin.YieldsExactly`).
- A browser's denial that comes after the approval changes nothing: the token is still handed over
  (`PendingLogin.DeniedNeverYields`).
- internal/worker/media_loop.go:144-149 expects the variants of a story deleted while processing to be swept with
  the story. A key is scheduled exactly if a variant row of its gone story names it (`OrphanedMedia.ListedExactly`),
  and these variants have no rows: they stay stored along every run (`OrphanedMedia.OrphansAreForever`), from a
  state that is reachable (`OrphanedMedia.DeletedWhileProcessing`).
- internal/worker/media_loop.go:126-129 takes it that nothing is visible yet when an attempt overwrites the keys of
  another. A worker that has overrun its lease can still overwrite the objects of a published story
  (`MediaBytes.OverrunIsReplaced`); after an attempt that was alone at its claim and published within its lease nobody
  can (`MediaBytes.InTimeRowsStand`).
- The limiter drops a bucket idle for fifteen minutes although three rules refill over an hour
  (`RateLimit.WindowBoundExactly`, `RateLimit.RuleTable`); these keep a burst per fifteen minutes instead.
- Worker configuration lets the view retention be shorter than the story lifetime, and then the pass is not
  invisible (`CleanupRetention.RetentionNeededExactly`).

## Model

| member | source | states |
|---|---|---|
| ObjectKeys.SanitizeSegment | internal/objstore/keys.go:34-49 | the loop yields a segment made of safe characters only, character by character the specified one, and never an empty one |
| ObjectKeys.SegmentFixesExactlySafe | internal/objstore/keys.go:30-49 | each character but ASCII letters, digits, hyphen and underscore becomes an underscore, a segment keeps its length unless it was empty, and is left alone if and only if it was safe |
| ObjectKeys.VariantKeyInjective | internal/objstore/keys.go:21-28 | two media keys are equal if and only if their three sanitized segments are |
| ObjectKeys.UuidTextFaithful | internal/worker/media_loop.go:122-124 | the text of a story id is safe, 36 characters long, and different for different ids |
| ObjectKeys.KeySpacesDisjoint | internal/objstore/keys.go:10-28 | a media key belongs to one story only and is never an upload key or empty |
| ObjectKeys.KindsDisjoint | internal/objstore/keys.go:21-28 | within a story, variants of different kinds never share a key |
| Tables.Int64Wraps | internal/store/jobs.go:61-76 | the 64-bit arithmetic of the retry delays: the value in range that differs by a multiple of two to the 64th |
| Tables.CleanupBackoffPositive | internal/store/jobs.go:61-76 | in 64-bit arithmetic every retry a cleanup budget allows lies in the future if and only if the budget is at most 29 |
| Tables.MediaBackoffPositive | internal/store/story.go:239-246 | the same for media retries, if and only if the budget is at most 30 |
| PipelineSafety.StepKept | internal/store/story.go:57-267 | every step of every participant, at whatever time and after whatever crash or lost lease, keeps the invariant and moves rows only along the edges of the life cycle |
| PipelineTheorems.PathKept | internal/worker/worker.go:131-159 | so does every finite interleaving of any number of workers, clients and sweeps |
| PipelineTheorems.ReachableInv | internal/store/story.go:57-267 | the invariant holds in every reachable state |
| PipelineTheorems.PublishedMediaIsServed | internal/store/story.go:171-226 | in every reachable state each variant row of a published story names a stored object, no delete_objects payload lists it, and no cleanup handler is about to delete it |
| MediaBytes.BytesStandExactly | internal/worker/media_loop.go:122-132 | in every reachable state the bytes behind a story's media key can never be written again if and only if no handler is working on the story and its job has succeeded or failed |
| MediaBytes.PublicationSettlesExactly | internal/store/story.go:195-206 | a publication brings that state about if and only if its handler is the only one working on the story |
| MediaBytes.InTimeRowsStand | internal/worker/media_loop.go:122-162 | when nobody was working on the story at an attempt's claim and it publishes within its lease, the bytes behind every row of the story are that attempt's at the publication and for good |
| MediaBytes.InTimeBytesStand | internal/worker/media_loop.go:122-162 | the same of every output the attempt has stored, one by one |
| MediaBytes.OverrunIsReplaced | internal/worker/media_loop.go:122-132 | a reachable state with a published row whose object another worker's next step overwrites, after a lease was overrun |
| Originals.ListedUploadsAreSpent | internal/store/jobs.go:106-129 | in every reachable state a delete_objects job lists an upload only if it was abandoned or its story is no longer processing |
| Originals.InputIsKept | internal/worker/media_loop.go:87-103 | in every reachable state the frozen input of a story still processing is the upload's own key, on no delete_objects job, and in no cleanup handler's hands |
| Originals.RetryFindsInput | internal/worker/media_loop.go:87-103 | once stored, the input stays stored along every run that ends with the story still processing |
| Originals.OriginalListedExactly | internal/store/story.go:213-222 | unless the story was deleted before its publication, its original is on a delete_objects job if and only if the story is no longer processing |
| Originals.DeletedOriginals | internal/store/story.go:230-267 | for a story deleted while processing both occur: a reachable state with the original unlisted, and the recorded failure that lists it |
| PipelineTheorems.MediaObjectsUnshared | internal/worker/media_loop.go:122-138 | no two stories share a media object and no upload key is a media key, in every reachable state |
| PipelineTheorems.PublishedAtMostOnce | internal/store/story.go:195-206 | along every run a story enters the published state at most once |
| PipelineTheorems.NeverRepublished | internal/store/story.go:195-206 | a story that has left processing is never published again |
| PipelineTheorems.StoryHistory | internal/store/story.go:171-226 | between any two moments of a run: no return to processing, failed, deleted and removed are final, both dates are written once, and expires_at is published_at plus the lifetime |
| PipelineTheorems.CleanupLosesNothing | internal/store/story.go:213-222 | in every reachable state a story that was published or failed has its original on some delete_objects job, and one that left published has all its variants on one |
| OrphanedMedia.StepNames | internal/store/story.go:446-481 | no step of anyone lists a media key on a delete_objects job unless one of that story's variant rows names it |
| OrphanedMedia.ListedExactly | internal/store/story.go:446-481 | in every reachable state a media key is on some delete_objects job if and only if its story is gone and one of the story's variant rows names the key; so no key of a story that was never published is ever listed |
| OrphanedMedia.OrphansAreForever | internal/worker/media_loop.go:143-151 | an output that no variant row names, of a story that is no longer processing, stays stored along every run |
| OrphanedMedia.DeletedWhileProcessing | internal/worker/media_loop.go:143-151 | claim, upload, deletion: a reachable state whose deleted story has a stored output that no later state ever lists or deletes |
| PipelineTheorems.SweptUploadsAreScheduled | internal/store/jobs.go:106-128 | every swept upload intent has its key on some delete_objects job |
| PipelineTheorems.FinalizeIsIdempotent | internal/store/story.go:54-75 | after a finalize, whatever happens next, a replay finds exactly the story the first call created |
| ItemHistory.AudienceIsTheAuthors | internal/store/story.go:101-106 | over every run after a finalization the item belongs to the finalizing user, and its audience is what that user asked for last: at the finalization, or in an edit while the item was published |
| ItemHistory.SeenExactlyByTheAddressed | internal/store/visibility.go:15-90 | after any run and under any graph an item is seen exactly while published and in time, its author's account standing, by its author and by those whom no block and no hide rule bars and whom the audience asked for last names |
| ItemHistory.EndsEarlyExactly | internal/store/story.go:446-469 | before its expiry an item on show ends if and only if its author or a moderator deletes it |
| ItemHistory.SeenStaysSeen | internal/store/interact.go:17-44 | what was delivered to a viewer stays marked as seen for as long as anyone can see it, if views are kept for the lifetime |
| ItemHistory.SeenByDelivery | internal/store/interact.go:17-44 | a delivery or acknowledgement to a viewer marks the item as seen by that viewer, and nothing else does |
| Causes.StoryChangesExactly | internal/store/story.go:171-267 | which steps alone change a story's state, dates and audience, and to what: publication and giving up by its handler, expiry in time, deletion by its author or a moderator, edits by its author |
| Causes.StoriesBegin | internal/store/story.go:57-130 | a story begins by the finalization of its author's own issued, unexpired upload, processing and addressed as asked |
| Causes.FinalizesExactly | internal/store/story.go:57-86 | a finalization goes through exactly for the issuer's own issued upload up to and at its expiry, and replays exactly for the own finalized one |
| Causes.SweepsTakeExactly | internal/store/jobs.go:79-129 | the sweeps may take exactly the published items and issued uploads whose time is up, from the instant on |
| Causes.JobChangesExactly | internal/store/story.go:136-267 | which steps alone change a media job: claims of a free job, publication, a retry ten seconds times a power of two ahead, failure for good, the sweep of a lost lease |
| Causes.JobsBegin | internal/store/story.go:89-125 | a media job begins with its story, frozen to the uploaded object, queued at once with three attempts |
| Causes.UploadsBegin | internal/store/story.go:19-31 | an upload begins by its intent, issued to its user under its key until its time is up |
| Causes.UploadChangesExactly | internal/store/jobs.go:106-129 | an upload ends by its user's finalization in time or by a sweep after its expiry |
| Causes.ViewChangesExactly | internal/store/interact.go:17-34 | a view row appears with the first delivery or acknowledgement, keeps both dates, and goes only by a purge that finds it as old as the retention |
| Causes.CleanupChangesExactly | internal/store/jobs.go:34-76 | which steps alone change a cleanup job, with its retries thirty seconds times a power of two ahead |
| Causes.CleanupBegins | internal/store/jobs.go:79-129 | a delete_objects job begins with a publication or failure for the original, with a deletion or expiry for the variant rows, or with a sweep for its uploads, and with nothing else; queued at once with eight attempts |
| Causes.VariantsChangeExactly | internal/store/story.go:175-194 | variant rows are written by publications alone, each with the last output of its kind |
| StoryStore.Store.CreateUploadIntent | internal/store/story.go:19-31 | the new tables are the specified ones: one more issued intent |
| StoryStore.Store.FinalizeUpload | internal/store/story.go:57-130 | absent, foreign, aborted and expired uploads are refused without a trace; a replay answers with the story of the upload; otherwise intent, job and story are written together |
| StoryStore.Store.ClaimMediaJob | internal/store/story.go:136-162 | claims a due job, or nothing if and only if none is due |
| StoryStore.Store.PublishStory | internal/store/story.go:175-226 | upserts every variant and publishes, or rolls everything back if the story is not processing |
| StoryStore.Store.FailMediaJob | internal/store/story.go:230-267 | requeues with backoff or fails job and story and schedules the original, guarded by the story still processing and not by the lease |
| StoryStore.Store.DeleteStory | internal/store/story.go:446-469 | owner or moderator deletion of a live or processing story together with the cleanup job of its variants |
| StoryStore.Store.UpdateStory | internal/store/story.go:415-441 | edits the audience of the owner's published item; no visibility leaves it alone, and another than a list forgets the list |
| StoryStore.Store.RecordView | internal/store/interact.go:17-22 | one row for a viewer and an item, dated by the first delivery |
| StoryStore.Store.AcknowledgeView | internal/store/interact.go:25-34 | keeps the first acknowledgement |
| StoryStore.Store.ScheduleOriginal | internal/store/story.go:213-222 | the cleanup row of the original, by way of the job and its intent, or none when the join is empty |
| StoryStore.Store.ExpireStories | internal/store/jobs.go:79-102 | the taken stories are deleted, each with a cleanup job of its own; a story without variants gets the one empty key the outer join aggregates to |
| StoryStore.Store.GCAbandonedUploads | internal/store/jobs.go:106-129 | the taken intents expire and share one cleanup job, or nothing is inserted |
| StoryStore.Store.PurgeViews | internal/store/jobs.go:137-143 | exactly the view rows at least as old as the retention go |
| StoryStore.Store.ReapExpiredLeases | internal/store/jobs.go:197-210 | exactly the expired leases with attempts left are requeued, in both job tables |
| StoryStore.Store.ClaimCleanupJob | internal/store/jobs.go:34-49 | claims a due job, or nothing if and only if none is due |
| StoryStore.Store.CompleteCleanupJob | internal/store/jobs.go:51-56 | the job is done |
| StoryStore.Store.FailCleanupJob | internal/store/jobs.go:61-76 | requeues with backoff or fails for good, judged by the attempts the claim returned |
| Objects.MemoryStore.Put | internal/objstore/memory.go:39-55 | refuses exactly an empty key and a declared size that is not that of the data; otherwise stores the bytes under the key and touches nothing else |
| Objects.MemoryStore.Get | internal/objstore/memory.go:57-83 | answers with the bytes of a stored key and with not-found otherwise |
| Objects.MemoryStore.Delete | internal/objstore/memory.go:100-107 | removes keys, absent ones included, and may stop part-way leaving the rest |
| Worker.Config.constructor | internal/worker/worker.go:71-106 | each non-positive setting takes exactly its default, the others stand; both defaults together keep views at least as long as stories |
| Worker.Worker.FailMedia | internal/worker/media_loop.go:164-175 | a failure is recorded or, without the database, leaves the lease to run out; either is one protocol step after which the job is not due now and no other job has changed |
| Worker.Worker.HandleMediaJob | internal/worker/media_loop.go:55-162 | for every way an attempt can go, panics and failures that cannot be recorded included, the handler takes exactly the steps of that script, retryable or not, as a run of the protocol that ends with the job not due, every other job untouched and the handler gone |
| Worker.Worker.HandleOutputs | internal/worker/media_loop.go:122-162 | variants are stored one by one before the publishing transaction, a failed upload ends in a retryable failure behind exactly the uploads before it, recorded or not, and a failed transaction leaves the lease to expire |
| Worker.ScriptIs | internal/worker/media_loop.go:55-162 | an attempt stores its outputs one by one up to the first that fails, and ends in a publication if all went well, in a failure that may be retried exactly if the original is there and nothing found it unfit, or unrecorded without the database |
| Worker.Worker.ProcessOneMediaJob | internal/worker/worker.go:166-176 | fails without a trace if and only if the claim does, finds nothing if and only if nothing is due, and otherwise takes exactly the claimed job out of the due set |
| Worker.Worker.RunMediaOnce | internal/worker/worker.go:193-222 | at a fixed clock the claim loop claims every due job exactly once unless the cap, a cancellation, the deadline or a failing claim stops it, at exactly the first of these; the error is returned if and only if it was a cancellation or a claim |
| Worker.Worker.HandleCleanupJob | internal/worker/cleanup_loop.go:92-127 | deletes as many keys as the backend allows, then completes if and only if that was all of them, fails otherwise, or loses its database; the job is not due afterwards in any case |
| Worker.Worker.DeleteObjects | internal/worker/cleanup_loop.go:103-107 | the deletion is one protocol step per key that goes and succeeds if and only if the backend allowed them all |
| Worker.Worker.EndCleanup | internal/worker/cleanup_loop.go:108-115 | the recorded end is that one protocol step, after which the job is not due |
| Worker.Worker.ProcessOneCleanupJob | internal/worker/cleanup_loop.go:77-84 | fails without a trace if and only if the claim does, finds nothing if and only if nothing is due, and otherwise takes exactly the claimed job out of the due set |
| Worker.Worker.DrainCleanupJobs | internal/worker/cleanup_loop.go:64-86 | claims every due job exactly once, on every mix of success, failure, retry and loss, and leaves something due only if a cancellation or a failing claim ended it |
| Worker.Worker.TrySweep | internal/worker/cleanup_loop.go:34-59 | one statement of a pass either takes effect whole or is skipped |
| Worker.Worker.SweepTables | internal/worker/cleanup_loop.go:31-59 | the statements of a pass are a run of exactly those that do not fail, in their order |
| Worker.Worker.RunCleanupPass | internal/worker/cleanup_loop.go:31-62 | a whole pass is a run that begins with exactly the statements that do not fail, in their order, and leaves a cleanup job due only if a cancellation or a failing claim ended the drain |
| Feed.BuildFeed | internal/store/feed.go:90-138 | the grouping loop yields one group per author in order of first appearance, cut to the limit without the caller, and the caller's own |
| Feed.EmitGroups | internal/store/feed.go:124-137 | the output loop keeps the caller's group apart and stops at the limit |
| Feed.AuthorSequence | internal/store/feed.go:201-253 | not found if and only if nothing is visible; items and seen flags in query order, and HasUnseen if and only if some item is unseen |
| FeedTheorems.AuthorsRanked | internal/store/feed.go:76-83 | for every answer of the ranking query: whoever has unseen items first; of those alike natively followed, then imported, then other authors; then by the latest publication, last by GitHub id |
| FeedTheorems.AuthorsAreListed | internal/store/feed.go:72-75 | the authors that occur are exactly the caller, if anything of theirs is visible, and those with a visible item who are not muted or are wanted regardless |
| FeedTheorems.SelfIsFirst | internal/store/feed.go:76-77 | the caller comes first whenever they have anything visible |
| FeedTheorems.RowsContiguous | internal/store/feed.go:76-115 | one author's rows are adjacent |
| FeedTheorems.GroupIsSequence | internal/store/feed.go:97-115 | a group holds exactly its author's visible items, each once, in publication order, with their seen flags and the right HasUnseen |
| FeedTheorems.CutRanksLast | internal/store/feed.go:126-136 | whoever the limit cuts off comes after everyone shown, in that order |
| FeedTheorems.OwnGroupKept | internal/store/feed.go:126-136 | the break at the limit never loses the caller's own group |
| FeedTheorems.ReadFeed | internal/store/feed.go:34-138 | all of the above about what a caller of Feed receives, within the limit, in terms of graph rows, publication times and the clock alone |
| FeedExistence.FeedHasAnswer | internal/store/feed.go:41-84 | for every graph, caller and clock there is an answer of the ranking query, so the claims about all of them are not empty |
| FeedExistence.SequenceHasAnswer | internal/store/feed.go:201-253 | and one of the author query for every account |
| FeedTheorems.SequenceUnique | internal/store/feed.go:201-253 | with distinct publication times there is one right list of an author's items |
| FeedTheorems.FeedAgreesWithSequence | internal/store/feed.go:201-253 | a feed group is that author's sequence, item for item and flag for flag |
| FeedTheorems.RingAgreesWithSequence | internal/store/feed.go:305-348 | HasActive if and only if the sequence is not empty, HasUnseen if and only if it has an unseen item, and the mute and self flags |
| FeedTheorems.SameFeed | internal/store/feed.go:41-84 | the feed depends on the tables only through what is visible and seen |
| FeedTheorems.SameSequence | internal/store/feed.go:201-348 | so do sequence and ring |
| CleanupInvisible.CleanupIsInvisible | internal/worker/cleanup_loop.go:31-62 | when views are kept at least as long as stories live, a pass, whole, partial or spread over time, changes no visibility, seen flag, feed, sequence or ring that anyone can read afterwards |
| InterleavedPass.SweepMirrors | internal/worker/cleanup_loop.go:31-62 | a step of a pass cannot be told from no step by the simulation |
| InterleavedPass.OtherMirrored | internal/store/story.go:57-267 | whatever step anyone else can take after passes have worked they can take without them, to the same effect |
| InterleavedPass.PassesLeaveNoTrace | internal/worker/cleanup_loop.go:31-62 | the steps of passes can be taken out of any run, however they interleave with everyone else's: the rest is a run from the same state and from its end on every caller sees the same, if views are kept at least as long as stories live |
| CleanupRetention.RetentionNeededExactly | internal/store/jobs.go:137-143 | that holds of all passes if and only if the retention is at least the lifetime |
| CleanupRetention.PurgeIsSeen | internal/store/interact.go:36-42 | with a shorter retention a caller can see a live story turn unseen again |
| RateLimit.Limiter.Collect | internal/ratelimit/ratelimit.go:76-86 | drops exactly the buckets idle for longer than fifteen minutes, at most every five |
| RateLimit.Limiter.Allow | internal/ratelimit/ratelimit.go:45-72 | answer and new state are those of the specification, garbage collection included |
| RateLimit.KeysAreIsolated | internal/ratelimit/ratelimit.go:45-86 | over every run the replies to a key are those of a lone bucket that sees only its calls, whatever other keys and collections do, if its rules refill within the idle time |
| RateLimit.WindowBound | internal/ratelimit/ratelimit.go:45-86 | from any state a run can reach, in any window at most Burst + Burst*T/min(Per, fifteen minutes and one nanosecond) requests of a key are allowed, for every rule |
| RateLimit.WindowBoundExactly | internal/ratelimit/ratelimit.go:45-86 | for every rule and q: all windows of all runs keep Burst + Burst*T/q if and only if q is at most Per and at most fifteen minutes and one nanosecond |
| RateLimit.CollectionInvisibleExactly | internal/ratelimit/ratelimit.go:74-86 | dropping idle buckets is invisible in the replies if and only if Per is at most fifteen minutes and one nanosecond |
| RateLimit.RuleTable | internal/ratelimit/ratelimit.go:88-102 | of the rules in use exactly the three hourly ones exceed their bound; they keep a burst per fifteen minutes and a nanosecond, and nothing slower |
| RateLimit.WaitIsExact | internal/ratelimit/ratelimit.go:66-71 | after a refusal a request later than the wait is allowed and an earlier one is refused |
| RateLimit.RetryAfterSuffices | internal/api/middleware.go:215-225 | the next request of the key after the advertised delay is allowed, whatever other keys do meanwhile |
| PendingLogin.Store.ApprovePendingLogin | internal/store/session.go:186-200 | parks the token if and only if the login is pending and not past its expiry |
| PendingLogin.Store.DenyPendingLogin | internal/store/session.go:202-206 | denies a pending login and no other |
| PendingLogin.Store.PollPendingLogin | internal/store/session.go:217-272 | reply and new row are those of the specification; a wrong secret finds nothing and changes nothing |
| PendingLogin.Store.PurgeExpiredAuth | internal/store/jobs.go:146-160 | removes the browser logins expired for more than an hour |
| PendingLogin.ApprovePendingLogin | internal/auth/pending.go:87-123 | succeeds if and only if the login is pending, unexpired and the typed code is its own; a mismatch changes nothing |
| PendingLogin.OneTokenPerLogin | internal/store/session.go:215-272 | over every interleaving at most one poll of a login is handed a token, answers other than pending are followed by denied or expired only, and poll_count stays within the budget |
| PendingLogin.PollsAreAnswered | internal/store/session.go:217-272 | case by case what a poll with the right secret is told and leaves behind, the expiry itself included |
| PendingLogin.BudgetIs | internal/auth/pending.go:142-152 | one poll for every whole interval of the lifetime and twelve more, never less than one, for every lifetime |
| PendingLogin.DeniedNeverYields | internal/store/session.go:202-206 | after a denial some future hands over a token if and only if the login was approved before it and has polls left |
| PendingLogin.YieldsExactly | internal/store/session.go:186-272 | some future of any callers hands over a token if and only if the login is pending or approved and has polls left; from its expiry on, if and only if it was approved before and has polls left |
| PendingLogin.TokenIsEarned | internal/auth/pending.go:87-123 | a token that is handed over opens a session of the user it names, who had confirmed this login's code |
| PendingLogin.PatientClientIsServed | internal/auth/pending.go:138-152 | a client that keeps the interval never exhausts the budget before the expiry: each poll is told the login's state, and an approved login yields its token |
| PendingLogin.LoginsLastAnHour | internal/store/jobs.go:146-160 | over every run a login lasts while no purge comes later than an hour after its expiry, and none survives a later one |
| DeviceLogin.Store.PollDeviceLogin | internal/store/device.go:45-88 | marks expiry lazily and consumes a parked token, returning row and token |
| DeviceLogin.Store.ApproveDeviceLogin | internal/store/device.go:93-103 | parks the token if and only if the row is pending and unexpired |
| DeviceLogin.Store.ExpireDeviceLogin | internal/store/device.go:107-111 | expires a pending row and no other |
| DeviceLogin.Store.PurgeExpiredAuth | internal/store/jobs.go:146-160 | removes the device logins expired for more than an hour |
| DeviceLogin.PollDeviceLogin | internal/auth/device.go:55-117 | undisturbed, a poll returns a token if and only if one was parked or GitHub approves a personal account in time at both clock readings; every other answer has its own result and leaves the row counted, expired or as it was; it calls itself again at most once |
| DeviceLogin.AloneIsTheService | internal/auth/device.go:55-117 | the machine of single store calls and GitHub answers comes to the same verdict as the service method when nobody interferes, whatever the row, the answer and the clock |
| DeviceLogin.OnePollCollects | internal/auth/device.go:55-117 | over every interleaving of any number of polls at most one of a login returns a token, and that token's session belongs to the user returned with it |
| DeviceLogin.PollTerminates | internal/auth/device.go:107-114 | every poll is over after at most four store or GitHub steps of its own and re-enters at most once, whatever the others do |
| DeviceLogin.DecisionsStand | internal/store/device.go:90-111 | over every run a decision stands with its user and expiry until the row is purged: pending may become approved or expired, approved only consumed, and a purged login never comes back |
| DeviceLogin.ExpiredNeverYields | internal/auth/device.go:79-86 | once a login is marked expired, by its clock or by a denial, no poll ever returns a token for it |
| DeviceLogin.PendingAtExpiryNeverYields | internal/store/device.go:93-103 | a login still pending at its expiry never yields a token, however many approvals are under way |
| DeviceLogin.ParkedIsCollected | internal/store/device.go:72-87 | a poll that reads the row gets the token if and only if one is parked, at whatever time |
| DeviceLogin.CollectableExactly | internal/store/device.go:45-103 | some future of any number of polls yields a further token if and only if the login is pending or approved; from its expiry on, if and only if a token was parked before |
| DeviceLogin.LoginsLastAnHour | internal/store/jobs.go:146-160 | the same of a device login |
| Utf8.DecodeFindsEncodings | internal/terminal/sanitize.go:108-115 | the decoder accepts a prefix as a character if and only if it is the encoding of that character |
| Sanitize.EscapeSeqEnd | internal/terminal/sanitize.go:185-219 | the two scanning loops compute the specified end |
| Sanitize.SequenceEndsFirst | internal/terminal/sanitize.go:171-184 | that end lies behind the first terminator, or at the cap if there is none |
| Sanitize.SkipEscape | internal/terminal/sanitize.go:133-144 | the width taken with an ESC |
| Sanitize.SkipC1 | internal/terminal/sanitize.go:150-169 | the width taken with a raw C1 byte |
| Sanitize.Clean | internal/terminal/sanitize.go:72-125 | the loop ends on every byte string, never leaves it, and prints the specified characters as UTF-8 |
| Sanitize.OutputIsClean | internal/terminal/sanitize.go:23-53 | every output is valid UTF-8 of permitted characters only, at most one for each input byte |
| Sanitize.OutputBytesAreInert | internal/terminal/sanitize.go:36-41 | no output byte is a C0 control, ESC or DEL, but for a line feed that was asked for |
| Sanitize.LeftAloneExactly | internal/terminal/sanitize.go:32-34 | text is returned unchanged if and only if it is valid UTF-8 of permitted characters |
| Sanitize.Idempotent | internal/terminal/sanitize.go:72-125 | sanitizing twice is sanitizing once |
| Sanitize.EscapeIsOneCharacter | internal/terminal/sanitize.go:127-219 | a terminated sequence of up to 4096 bytes behind its introducer becomes one replacement character and the rest is sanitized as if alone |
| Sanitize.EightBitEscapeIsOneCharacter | internal/terminal/sanitize.go:146-219 | the same for a sequence behind a raw C1 introducer |
| Sanitize.ShortEscape | internal/terminal/sanitize.go:133-144 | ESC before any other byte is replaced together with it, and alone at the end of the text |
| Sanitize.UnterminatedEscape | internal/terminal/sanitize.go:171-219 | a sequence without its terminator is swallowed to the end of the text or for 4096 bytes |
| Sanitize.EightBitIsSevenBit | internal/terminal/sanitize.go:146-169 | a raw C1 byte is read exactly like ESC and the byte 0x40 below it, whatever follows |
| Sanitize.CharacterStands | internal/terminal/sanitize.go:104-122 | every other character is printed as it is, but for DEL and the nine named characters that override the direction of writing |
| Sanitize.ControlByte | internal/terminal/sanitize.go:83-103 | a tab becomes one space, every other lone control byte one replacement character, unless it is a line feed that was asked for |
| Sanitize.RefusedText | internal/terminal/sanitize.go:107-122 | a byte that starts no character is replaced by itself, a direction override as a whole |
| Sanitize.ScanOfSuffix | internal/terminal/sanitize.go:72-125 | what is printed from a position on depends only on what follows it |
| Sanitize.SanitizedIsCut | internal/terminal/sanitize.go:72-125 | a text may be cut wherever the scan takes a step: sanitizing the parts and joining them is sanitizing the whole |
| Sanitize.C1SurvivesExactly | internal/terminal/sanitize.go:94-122 | a C1 control is printed if and only if the scan steps on one written as two-byte UTF-8 |
| Sanitize.CsiInUtf8Survives | internal/terminal/sanitize.go:94-122 | U+009B is such a case |
| Sanitize.CarriageReturnIsReplaced | internal/terminal/sanitize.go:46-53 | at every step of the scan a carriage return becomes a replacement character between what stands before and behind it, and a CRLF a replacement character and a line feed |
| Base64.DecodesExactly | internal/terminal/iterm.go:161-166 | a text decodes to some bytes if and only if it is their encoding |
| Base64.EncodedSymbols | internal/terminal/kitty.go:65-66 | encoded text holds only alphabet and padding, so it can end no escape sequence |
| Tmux.Passthrough | internal/terminal/tmux.go:21-29 | the appended pieces are the envelope with every ESC doubled |
| Tmux.UnwrapsExactly | internal/terminal/tmux.go:5-20 | tmux reads a payload and a rest off a stream if and only if the stream is the envelope of that payload followed by that rest |
| Kitty.ChunkString | internal/terminal/kitty.go:128-137 | the shrinking loop yields the specified chunks, one empty chunk for empty input |
| Kitty.ChunksAreExact | internal/terminal/kitty.go:125-137 | chunks join to the text, none is longer than the size, all but the last are exactly that long, and the last is empty only for empty text |
| Kitty.BuildTransmit | internal/terminal/kitty.go:102-123 | the loop writes one command per chunk with full control data on the first only |
| Kitty.TransferIsReceived | internal/terminal/kitty.go:90-123 | a terminal that reads commands until one says no more follows gets exactly the fields and chunks that were sent and stops at their end |
| Kitty.ImageArrives | internal/terminal/kitty.go:65-68 | from the bytes sent, whatever follows, a terminal reads a=T, f=32, the size under s and v, the id, the columns under c, the rows under r and q=2, and gets the pixels back in payloads of at most 4096 bytes |
| Kitty.ImageArrivesThroughTmux | internal/terminal/kitty.go:65-72 | the same out of the tmux envelope |
| Kitty.FieldsTellHeader | internal/terminal/kitty.go:109-115 | different headers are written as different control data, so nothing in them is lost |
| Kitty.HeaderIsUnderstood | internal/terminal/kitty.go:109-115 | each number of the header is found under the key a terminal reads it by |
| ITerm.BuildMultipart | internal/terminal/iterm.go:156-170 | the loop over the raw bytes writes header, parts and end mark |
| ITerm.MultipartArrives | internal/terminal/iterm.go:150-170 | decoding each part on its own and joining restores the raw bytes and the arguments |
| ITerm.InlineArrives | internal/terminal/iterm.go:140-149 | the single-sequence form restores them too |
| ITerm.ArgumentsAreUnderstood | internal/terminal/iterm.go:138-142 | size, width in columns, height in rows, inline and preserveAspectRatio are found under their keys |
| ITerm.FileArrives | internal/terminal/iterm.go:73-77 | so does whichever form the threshold selects, whatever follows |
| ITerm.FormExactly | internal/terminal/iterm.go:73-77 | up to a mebibyte one sequence, above it parts of exactly 204800 bytes and a rest |
| ITerm.FileArrivesThroughTmux | internal/terminal/iterm.go:73-80 | the same out of the tmux envelope |
| Gif.SkipSubBlocks | internal/media/probe.go:290-305 | the loop stays in bounds and finds what follows the terminator, or that there is none |
| Gif.CountFrames | internal/media/probe.go:230-288 | on every byte string the scan ends, stays in bounds and computes the specified count |
| Gif.WellFormedIsCounted | internal/media/probe.go:221-288 | every file built of GIF89a blocks (sections 15 to 27), whatever is appended, counts as its images up to the limit |
| Gif.NeverBeyondLimit | internal/media/probe.go:246-249 | for any bytes the count is at most the limit, and zero for a negative one |
| WebP.CountFrames | internal/media/probe.go:310-342 | on every byte string the scan ends, stays in bounds and computes the specified count |
| WebP.WellFormedIsCounted | internal/media/probe.go:307-342 | every RIFF file with padded chunks (sections 2.3 and 2.4 of RFC 9649), whatever is appended, counts as max(1, min(ANMF chunks, limit)) for a positive limit, and the exact value for any other |
| WebP.NeverBeyondLimit | internal/media/probe.go:327-341 | for any bytes the count is at least one and at most a positive limit |
| FollowGraph.Store.Follow | internal/store/graph.go:16-35 | creates or revives a follow, or fails without a trace for an unknown user or account |
| FollowGraph.Store.Unfollow | internal/store/graph.go:39-46 | leaves a tombstone in place of an active follow |
| FollowGraph.Store.SetBlock | internal/store/graph.go:149-175 | sets the block and turns the follows of both directions into tombstones, or lifts the block and nothing else |
| FollowGraph.Store.SetHide | internal/store/graph.go:177-198 | sets or lifts one hide rule and touches nothing else |
| FollowGraph.Store.SetMute | internal/store/graph.go:145-147 | sets or lifts one mute and touches nothing else |
| FollowGraph.Store.SuspendUser | internal/store/identity.go:245-256 | suspends or unsuspends one user |
| FollowGraph.Store.CreateAudienceList | internal/store/graph.go:343-361 | a new list of its owner with the known ones of the members given |
| FollowGraph.Store.UpdateAudienceList | internal/store/graph.go:363-415 | replaces the members by the known ones of those given, for the owner of a list that is not deleted |
| FollowGraph.Store.DeleteAudienceList | internal/store/graph.go:471-475 | marks the owner's list as deleted |
| FollowGraph.Store.ImportFollows | internal/store/graph.go:80-135 | a preview leaves every table as it was; an import writes exactly the specified follows, identities and onboarding mark; for a user who is gone it fails exactly if it would add something |
| FollowGraph.PreviewIsHonestExactly | internal/store/graph.go:80-135 | a preview reports what the import then does if and only if no account the import would add is listed twice |
| FollowGraph.PreviewIsHonest | internal/store/graph.go:78-79 | on a list without duplicates it always does |
| FollowGraph.ReportedExactly | internal/store/graph.go:105-123 | at its first mention an account is reported as blocked exactly if a block stands in either direction, else as unfollowed, already followed or added exactly by its row |
| FollowGraph.TombstonesAreReported | internal/store/graph.go:109-112 | over every run from a user's unfollow to a new follow every import and preview that lists the account reports it as skipped |
| FollowGraph.ImportedRow | internal/store/graph.go:84-123 | an import leaves every existing row alone and adds an active import row exactly for the listed, unblocked accounts without one |
| FollowGraph.ReimportChangesNothing | internal/store/graph.go:105-123 | importing the same list again changes no relationship |
| FollowGraph.TombstonesHold | internal/store/graph.go:37-46 | over every run only the user's own follow revives a follow they ended |
| FollowGraph.NativeStaysNative | internal/store/graph.go:26-29 | over every run of follows, unfollows, blocks and imports a native follow stays native |
| FollowGraph.FollowIsNative | internal/store/graph.go:16-35 | a follow makes an active native row of whatever there was, and native it stays over every run |
| FollowGraph.BlockEndsExactly | internal/store/graph.go:149-175 | a block ends exactly the two follows between the pair and touches no other row; lifting it touches no follow |
| FollowGraph.BlockSevers | internal/store/graph.go:153-174 | after a block nothing is followed in either direction, and no import, unfollow or other block changes that until the block is lifted or someone follows explicitly |
| FollowGraph.FollowsExactly | internal/store/graph.go:16-175 | after any run an account is followed if and only if a follow, or an import that found neither row nor block, set it up and no unfollow or block between the two came after |
| Access.BlockDeniesBoth | internal/store/visibility.go:28-30 | from a block until it is lifted neither side sees any item of the other, over every run of follows, unfollows, imports and blocks |
| Access.VisibleExactly | internal/store/visibility.go:15-90 | the access predicate by the rules its documentation lists, for every graph, clock, caller and item |
| Access.HideDenies | internal/store/visibility.go:50-54 | from a hide rule until it is lifted its target sees nothing of the author, over every run of graph changes |
| Access.HideLeavesNoTrace | internal/store/graph.go:177-198 | lifting it gives back everything: the graph is the one it would be without the rule |
| Access.OwnItemStays | internal/store/visibility.go:44-45 | no graph change but their own suspension costs authors the sight of their own live items |
| Access.SuspensionHides | internal/store/visibility.go:42-43 | while an author is suspended nobody sees their items, and nobody ever sees those of a deleted account |
| Access.MuteIsNoRule | internal/store/visibility.go:34-35 | a mute changes what nobody may see |
| Access.ListAudienceExactly | internal/store/visibility.go:76-83 | a list audience admits exactly the members its owner gave it last; a deleted list and somebody else's list admit nobody, over every run |
| Access.NewListAudience | internal/store/graph.go:343-361 | a new list admits exactly the members it was created with, until its owner changes it |
| Access.FollowAudiencesExactly | internal/store/visibility.go:56-90 | after any run of follows, unfollows, blocks and imports each follow audience shows exactly what the public one would to exactly those whose follow was set up and not ended since |
| Access.HiddenForGood | internal/store/visibility.go:20-39 | an item that is no longer processing and not on show is hidden from everyone in every later state of every run, whatever becomes of the graph |
| Access.SeenOnce | internal/store/visibility.go:20-39 | an item is seen during one unbroken stretch shorter than the lifetime, by whomever; once on show it stays so exactly until it is expired, deleted or removed |
| FollowGraph.Summarize | internal/auth/import.go:56-72 | the tallies count the changes of each kind and sum to the list length; the sample is the first five added |
| FollowGraph.AddedOnesAre | internal/auth/import.go:56-60 | the accounts the sample is cut from are the added ones, each at its place in the order of the changes |
| Following.Fetch | internal/ghclient/following.go:29-74 | the page loop computes the specified crawl within a hundred pages |
| Following.CrawlIsListing | internal/ghclient/following.go:38-73 | stopping at the cap without fetching further pages loses nothing: the result is the first distinct accounts of the whole listing |
| Following.HundredPages | internal/ghclient/following.go:29-74 | at most a hundred pages are asked for, and the hundredth still counts |
| Following.CrawlIsDistinct | internal/ghclient/following.go:59-69 | the result has no duplicates and is within the cap |
| Following.CollectsAll | internal/ghclient/following.go:59-69 | below the cap an account is in the result if and only if it was listed |
| Following.Import | internal/auth/import.go:41-73 | a disabled import does nothing; a preview and a failed import change nothing; the summary counts the listed accounts that are blocked, followed, unfollowed and new by the rows before the import, and samples new ones |
| FitCells.Fit | internal/terminal/scale.go:24-72 | the result stays in the box with every dimension at least 1, fills one axis exactly, is within half a pixel of the aspect ratio in the other unless raised to 1, and uses the fewest cells |
| FitCells.Place | internal/tui/view.go:141-150 | the centred picture lies on the plane if and only if the plane is not empty, with margins that differ by at most one cell |
| Visibility.PublicIsWhatStrangersSee | internal/store/story.go:319-354 | consistency of the two definitions: the anonymous query shows exactly what the access predicate shows a caller the graph knows nothing about |

## Left out

- PostgreSQL: isolation anomalies, lock waits and constraint errors beyond the ones named above; a transaction is one step.
- StoryStore.Store.ClaimMediaJob: claims any due job; the order by creation time and SKIP LOCKED are not modelled, so fairness is not either.
- StoryStore.Store.ClaimCleanupJob: likewise.
- StoryStore.Store.ExpireStories: which due stories a batch takes, its size limit and the ids of the inserted rows are parameters.
- StoryStore.Store.GCAbandonedUploads: likewise.
- StoryStore.Store.PublishStory: variant metadata other than kind and key, such as size and duration, is not stored.
- StoryStore.Store.UpdateStory: caption, alt text and the reply and reaction switches are not stored.
- StoryStore.Store.FinalizeUpload: caption, alt text, reply and reaction switches, size and checksum are not stored.
- StoryStore.Store.CreateUploadIntent: the declared MIME type and size are not stored.
- Worker.Worker.HandleMediaJob: a job whose frozen input names no story is not modelled; a panic strikes before the first output is stored, and behind stored outputs it is a failed upload.
- Worker.Worker.HandleCleanupJob: the kind is always delete_objects and the payload always parses.
- Worker.Worker.RunMediaOnce: the claims happen at one instant of the store's clock, when and whether the context is cancelled or the deadline passes is a parameter, and the role switch is not modelled.
- Worker.Worker.DrainCleanupJobs: runs at one instant of the store's clock.
- Worker.Worker.RunCleanupPass: purging replies and spent logins is not part of the pass; the logins' purge is PendingLogin.Store.PurgeExpiredAuth and DeviceLogin.Store.PurgeExpiredAuth.
- PendingLogin.Store.PurgeExpiredAuth: of the three statements of the purge this is the one on browser logins; OAuth flows are not modelled.
- DeviceLogin.Store.PurgeExpiredAuth: the statement on device logins.
- Feed.BuildFeed: the rows are those of the ranking query, which FeedAnswer characterises; loading variants, logins and avatars is not modelled.
- Feed.AuthorSequence: looking the login up is not modelled; the rows are those of its query.
- FeedTheorems.FeedAgreesWithSequence: assumes distinct publication times, since neither query breaks ties between them.
- Objects.MemoryStore.Put: content types and etags are not modelled.
- Objects.MemoryStore.Get: ranges, content types and etags are not modelled.
- RateLimit.Limiter.Allow: token counts are real numbers; the rounding of floating point is not modelled.
- FitCells.Fit: the scale is a real number; the rounding of floating point is not modelled.
- WebP.CountFrames: chunk sizes are unbounded integers, as on a 64-bit platform; the 32-bit overflow guard has no case.
- DeviceLogin.PollDeviceLogin: reading the identity, creating the user and issuing the session are one step with GitHub's answer.
- PendingLogin.ApprovePendingLogin: trimming and upper-casing the typed code happen before; the session's expiry and revocation are not modelled.
- Account deletion, which removes rows of every table at once.
- Bounded attempts, exclusive leases and a terminal succeeded state of jobs: the code does not guarantee them.
- Absence of an active follow across a block: an explicit follow after the block can create one, and the access predicate still denies it anything.
- HTTP handlers, OAuth URLs, media decoding and scaling, the CLI, the browser extension and the user interfaces.
- Replies, reactions, notifications, moderation reports, the names of audience lists, and the listings over the follow graph: simple row updates and reads.
- Hashing, random generation and constant-time comparison: ids, secrets and tokens are opaque values.
- Truncating sanitized text to a cell width, which an external library measures.
- Erasing pictures: kitty's delete commands, the iTerm2 renderer's memory of placements.
