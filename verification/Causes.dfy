/** Why a row changes: for every table, exactly which steps touch a row and what they leave in it. */
module Causes {
  import opened Options
  import opened ObjectKeys
  import opened Clock
  import opened Numbers
  import opened Tables
  import opened PipelineInvariant
  import opened PipelineSteps
  import opened PipelineSafety
  import opened Protocol
  import OM = OrphanedMedia
  import OR = Originals
  import T = Transactions

  // ---------------------------------------------------------- what a step is about

  /** The handler of this story publishes or fails. */
  ghost predicate Works(w: World, a: Action, story: Uuid) {
    (a.Publish? || a.FailMedia?) && a.run in w.media && w.media[a.run].story == story
  }

  ghost predicate IsProcessing(w: World, story: Uuid) {
    story in w.db.stories && w.db.stories[story].state == Processing
  }

  ghost predicate Publishes(w: World, a: Action, story: Uuid) {
    a.Publish? && Works(w, a, story) && IsProcessing(w, story)
  }

  /** The handler of this job reports a failure that is final, or after the last attempt. */
  ghost predicate GivesUp(w: World, a: Action, job: Uuid) {
    && a.FailMedia? && a.run in w.media && w.media[a.run].job == job && job in w.db.jobs
    && (!a.retryable || w.db.jobs[job].maxAttempts <= w.db.jobs[job].attempts)
  }

  ghost predicate Retries(w: World, a: Action, job: Uuid) {
    && a.FailMedia? && a.run in w.media && w.media[a.run].job == job && job in w.db.jobs
    && a.retryable && w.db.jobs[job].attempts < w.db.jobs[job].maxAttempts
  }

  /** A deletion that takes effect: by a moderator, or by the author. */
  ghost predicate Deletes(w: World, a: Action, story: Uuid) {
    && a.Delete? && a.story == story && story in w.db.stories
    && w.db.stories[story].state in {Processing, Published}
    && (a.moderator || a.actor == w.db.stories[story].author)
  }

  /** The author gives a published item another audience. */
  ghost predicate Readdresses(w: World, a: Action, story: Uuid) {
    && a.Update? && a.story == story && story in w.db.stories && a.actor == w.db.stories[story].author
    && w.db.stories[story].state == Published && a.edit.visibility.Some?
  }

  predicate WritesStories(a: Action) {
    a.Finalize? || a.Publish? || a.FailMedia? || a.Delete? || a.Update? || a.Expire?
  }

  // ------------------------------------------------------------------- stories

  /** What becomes of a story, and by which step alone. */
  ghost predicate StoryAfter(w: World, a: Action, story: Uuid, s: Story, s': Story) {
    && s'.author == s.author && s'.job == s.job
    && s'.state == (
         if Publishes(w, a, story) then Published
         else if Works(w, a, story) && GivesUp(w, a, w.media[a.run].job) && s.state == Processing then StoryState.Failed
         else if Deletes(w, a, story) then if a.moderator then Removed else Deleted
         else if a.Expire? && story in a.batch.Values then Deleted
         else s.state)
    && s'.publishedAt == (if Publishes(w, a, story) then Some(w.now) else s.publishedAt)
    && s'.expiresAt == (if Publishes(w, a, story) then Some(w.now + w.lifetime) else s.expiresAt)
    && s'.audience == (
         if !Readdresses(w, a, story) then s.audience
         else if a.edit.visibility == Some(CustomList) then Draft(CustomList, a.edit.audienceList)
         else Draft(a.edit.visibility.value, None))
  }

  lemma PublishedStory(w: World, a: Action, story: Uuid)
    requires Inv(w) && Enabled(w, a) && a.Publish? && story in w.db.stories
    ensures story in Apply(w, a).db.stories && StoryAfter(w, a, story, w.db.stories[story], Apply(w, a).db.stories[story])
  {
    hide Inv, T.UpsertVariants, OriginalOf;
  }

  /** What a reported failure leaves in the two tables it writes. */
  lemma FailureIs(db: Db, now: int, job: Uuid, story: Uuid, retryable: bool, cleanupId: Uuid)
    requires job in db.jobs
    ensures var r, j := T.FailMediaJob(db, now, job, story, retryable, cleanupId), db.jobs[job];
      && r.Some?
      && (retryable && j.attempts < j.maxAttempts ==>
           r.value.stories == db.stories && r.value.cleanup == db.cleanup
           && r.value.jobs == db.jobs[job := j.(state := JobState.Queued, runAfter := now + Backoff(j.attempts, MEDIA_BACKOFF))])
      && (!(retryable && j.attempts < j.maxAttempts) ==>
           && r.value.jobs == db.jobs[job := j.(state := JobState.Failed)]
           && r.value.stories == if story in db.stories && db.stories[story].state.Processing?
                then db.stories[story := db.stories[story].(state := StoryState.Failed)] else db.stories)
  {
    hide Backoff, OriginalOf;
  }

  lemma ReportedFailure(w: World, a: Action)
    requires Inv(w) && Enabled(w, a) && a.FailMedia?
    ensures a.run in w.media && w.media[a.run].job in w.db.jobs && w.media[a.run].story in w.db.stories
    ensures var m := w.media[a.run];
      && w.db.jobs[m.job].inputStory == m.story
      && Apply(w, a).db == T.FailMediaJob(w.db, w.now, m.job, m.story, a.retryable, a.cleanupId).value
      && T.FailMediaJob(w.db, w.now, m.job, m.story, a.retryable, a.cleanupId).Some?
  {
    assert RunBacked(w, w.media[a.run]);
    hide Inv, OriginalOf, Backoff, T.ScheduleOriginal;
  }

  lemma FailedStory(w: World, a: Action, story: Uuid)
    requires Inv(w) && Enabled(w, a) && a.FailMedia? && story in w.db.stories
    ensures story in Apply(w, a).db.stories && StoryAfter(w, a, story, w.db.stories[story], Apply(w, a).db.stories[story])
  {
    hide Inv, Enabled, Apply, T.FailMediaJob, Backoff;
    ReportedFailure(w, a);
    var m := w.media[a.run];
    FailureIs(w.db, w.now, m.job, m.story, a.retryable, a.cleanupId);
    hide Kept, Pow2, Deletes, Readdresses, Retries;
  }

  lemma DeletedStory(w: World, a: Action, story: Uuid)
    requires Enabled(w, a) && a.Delete? && story in w.db.stories
    ensures story in Apply(w, a).db.stories && StoryAfter(w, a, story, w.db.stories[story], Apply(w, a).db.stories[story])
  {
    hide VariantKeys;
  }

  lemma EditedStory(w: World, a: Action, story: Uuid)
    requires Enabled(w, a) && a.Update? && story in w.db.stories
    ensures story in Apply(w, a).db.stories && StoryAfter(w, a, story, w.db.stories[story], Apply(w, a).db.stories[story])
  {
    var after := Apply(w, a).db.stories;
    assert after == OrElse(T.UpdateStory(w.db, a.actor, a.story, a.edit), w.db).stories;
    hide Enabled, Apply;
  }

  lemma OthersFinalized(w: World, a: Action, story: Uuid)
    requires Enabled(w, a) && a.Finalize? && story in w.db.stories
    ensures story in Apply(w, a).db.stories && StoryAfter(w, a, story, w.db.stories[story], Apply(w, a).db.stories[story])
  {
    assert story in Apply(w, a).db.stories && Apply(w, a).db.stories[story] == w.db.stories[story];
    hide Enabled, Apply;
  }

  lemma ExpiredStory(w: World, a: Action, story: Uuid)
    requires Enabled(w, a) && a.Expire? && story in w.db.stories
    ensures story in Apply(w, a).db.stories && StoryAfter(w, a, story, w.db.stories[story], Apply(w, a).db.stories[story])
    ensures story in a.batch.Values ==>
      var s := w.db.stories[story]; s.state == Published && s.expiresAt.Some? && s.expiresAt.value <= w.now
  {
    hide VariantKeys, T.ExpiryKeys;
  }

  lemma LeftStory(w: World, a: Action, story: Uuid)
    requires !WritesStories(a) && story in w.db.stories
    ensures StoryAfter(w, a, story, w.db.stories[story], w.db.stories[story])
  {
  }

  lemma WorkersLeaveStories(w: World, a: Action)
    requires Enabled(w, a) && (a.ClaimMedia? || a.PutVariant? || a.DropMedia? || a.Tick? || a.CreateIntent? || a.ClientPut?)
    ensures Apply(w, a).db.stories == w.db.stories
  {
  }

  lemma CleanersLeaveStories(w: World, a: Action)
    requires Enabled(w, a) && (a.ClaimCleanup? || a.DeleteObject? || a.CompleteCleanup? || a.FailCleanup? || a.DropCleanup?)
    ensures Apply(w, a).db.stories == w.db.stories
  {
    hide Backoff;
  }

  lemma OthersLeaveStories(w: World, a: Action)
    requires Enabled(w, a) && (a.CollectUploads? || a.PurgeViews? || a.Reap? || a.Resolve? || a.RecordView? || a.AcknowledgeView?)
    ensures Apply(w, a).db.stories == w.db.stories
  {
  }

  lemma StoriesLeft(w: World, a: Action)
    requires Enabled(w, a) && !WritesStories(a)
    ensures Apply(w, a).db.stories == w.db.stories
  {
    hide Enabled, Apply;
    if a.ClaimMedia? || a.PutVariant? || a.DropMedia? || a.Tick? || a.CreateIntent? || a.ClientPut? {
      WorkersLeaveStories(w, a);
    } else if a.ClaimCleanup? || a.DeleteObject? || a.CompleteCleanup? || a.FailCleanup? || a.DropCleanup? {
      CleanersLeaveStories(w, a);
    } else {
      OthersLeaveStories(w, a);
    }
  }

  /**
   * A story's state, dates and audience change by these steps and no others: its handler publishes it or gives it
   * up while it is processing, a sweep expires it, its author or a moderator deletes it, its author readdresses it.
   */
  lemma StoryChangesExactly(w: World, a: Action, story: Uuid)
    requires Inv(w) && Enabled(w, a) && story in w.db.stories
    ensures story in Apply(w, a).db.stories && StoryAfter(w, a, story, w.db.stories[story], Apply(w, a).db.stories[story])
    ensures a.Expire? && story in a.batch.Values ==>
      var s := w.db.stories[story]; s.state == Published && s.expiresAt.Some? && s.expiresAt.value <= w.now
  {
    hide Inv, Enabled, Apply, StoryAfter;
    if a.Publish? {
      PublishedStory(w, a, story);
    } else if a.FailMedia? {
      FailedStory(w, a, story);
    } else if a.Delete? {
      DeletedStory(w, a, story);
    } else if a.Expire? {
      ExpiredStory(w, a, story);
    } else if a.Update? {
      EditedStory(w, a, story);
    } else if a.Finalize? {
      OthersFinalized(w, a, story);
    } else {
      StoriesLeft(w, a);
      LeftStory(w, a, story);
    }
  }

  /**
   * A story comes into being by the finalization of an upload that its author has been issued and that has not
   * expired; it is its author's, processing, and addressed as the author asked.
   */
  lemma StoriesBegin(w: World, a: Action, story: Uuid)
    requires Enabled(w, a) && story !in w.db.stories
    ensures story in Apply(w, a).db.stories <==> a.Finalize? && a.newStory == story
    ensures a.Finalize? ==>
      && a.upload in w.db.intents && w.db.intents[a.upload].user == a.user
      && w.db.intents[a.upload].state == Issued && w.now <= w.db.intents[a.upload].expiresAt
    ensures a.Finalize? && a.newStory == story ==>
      Apply(w, a).db.stories[story] == Story(a.user, a.newJob, Processing, a.draft, None, None)
  {
    if a.Publish? || a.FailMedia? {
      MediaStepsAddNoStory(w, a, story);
    } else if !WritesStories(a) {
      StoriesLeft(w, a);
      hide Enabled, Apply;
    } else {
      hide VariantKeys, T.ExpiryKeys;
    }
  }

  lemma MediaStepsAddNoStory(w: World, a: Action, story: Uuid)
    requires Enabled(w, a) && (a.Publish? || a.FailMedia?) && story !in w.db.stories
    ensures story !in Apply(w, a).db.stories
  {
    hide T.UpsertVariants, Backoff, OriginalOf;
  }

  /** Which finalizations go through, to the instant: the issuer's own, of an issued upload, up to and at its expiry. */
  lemma FinalizesExactly(w: World, user: Uuid, upload: Uuid, job: Uuid, story: Uuid, draft: Draft)
    ensures Enabled(w, Finalize(user, upload, job, story, draft)) <==>
      && upload in w.db.intents && w.db.intents[upload].user == user && w.db.intents[upload].state == Issued
      && w.now <= w.db.intents[upload].expiresAt && job !in w.db.jobs && story !in w.db.stories
    ensures T.FinalizeCheck(w.db, w.now, user, upload) == T.Replay <==>
      upload in w.db.intents && w.db.intents[upload].user == user && w.db.intents[upload].state == IntentState.Finalized
  {
  }

  /** What the sweeps may take: published items and issued uploads whose time is up, from the very instant on. */
  lemma SweepsTakeExactly(w: World, batch: map<Uuid, Uuid>, due: set<Uuid>, cleanupId: Uuid)
    ensures Enabled(w, Expire(batch)) <==>
      && (forall c :: c in batch ==> c !in w.db.cleanup)
      && (forall c :: c in batch ==>
            batch[c] in w.db.stories && w.db.stories[batch[c]].state == Published
            && w.db.stories[batch[c]].expiresAt.Some? && w.db.stories[batch[c]].expiresAt.value <= w.now)
      && (forall c, c' :: c in batch && c' in batch && batch[c] == batch[c'] ==> c == c')
    ensures Enabled(w, CollectUploads(due, cleanupId)) <==>
      && cleanupId !in w.db.cleanup
      && forall i :: i in due ==>
           i in w.db.intents && w.db.intents[i].state == Issued && w.db.intents[i].expiresAt <= w.now
  {
  }

  // ----------------------------------------------------------------- media jobs

  /** A claim takes a job whose time has come and that nobody holds, or whose holder's lease is over. */
  ghost predicate IsFree(state: JobState, runAfter: int, now: int) {
    runAfter <= now && (state == JobState.Queued || (state.Leased? && state.until < now))
  }

  ghost predicate LeaseLost(state: JobState, attempts: nat, maxAttempts: nat, now: int) {
    state.Leased? && state.until < now && attempts < maxAttempts
  }

  ghost predicate JobAfter(w: World, a: Action, id: Uuid, j: MediaJob, j': MediaJob) {
    && j' == j.(state := j'.state, attempts := j'.attempts, runAfter := j'.runAfter)
    && j'.attempts == (if a.ClaimMedia? && a.job == id then j.attempts + 1 else j.attempts)
    && j'.state == (
         if a.ClaimMedia? && a.job == id then Leased(a.owner, w.now + a.lease)
         else if a.Publish? && a.run in w.media && w.media[a.run].job == id && IsProcessing(w, j.inputStory) then Succeeded
         else if GivesUp(w, a, id) then JobState.Failed
         else if Retries(w, a, id) then JobState.Queued
         else if a.Reap? && LeaseLost(j.state, j.attempts, j.maxAttempts, w.now) then JobState.Queued
         else j.state)
    && (if Retries(w, a, id) then j.attempts <= 29 ==> j'.runAfter == w.now + Pow2(j.attempts) * (10 * SECOND)
        else j'.runAfter == j.runAfter)
  }

  lemma MediaBackoffIs(attempts: nat)
    requires attempts <= 29
    ensures Backoff(attempts, MEDIA_BACKOFF) == Pow2(attempts) * (10 * SECOND)
  {
    Pow2Values();
    BackoffSafe(attempts, MEDIA_BACKOFF, 29);
  }

  lemma CleanupBackoffIs(attempts: nat)
    requires attempts <= 28
    ensures Backoff(attempts, CLEANUP_BACKOFF) == Pow2(attempts) * (30 * SECOND)
  {
    Pow2Values();
    BackoffSafe(attempts, CLEANUP_BACKOFF, 28);
  }

  lemma PublicationJobs(db: Db, now: int, job: Uuid, story: Uuid, vs: seq<Variant>, lifetime: int, cleanupId: Uuid)
    requires job in db.jobs
    ensures var r := T.PublishStory(db, now, job, story, vs, lifetime, cleanupId);
      && (r.Some? <==> story in db.stories && db.stories[story].state.Processing?)
      && (r.Some? ==> r.value.jobs == db.jobs[job := db.jobs[job].(state := Succeeded)])
  {
    hide T.UpsertVariants, OriginalOf;
  }

  lemma Publishing(w: World, a: Action)
    requires Inv(w) && Enabled(w, a) && a.Publish?
    ensures a.run in w.media && w.media[a.run].job in w.db.jobs && w.media[a.run].story in w.db.stories
    ensures var m := w.media[a.run];
      && w.db.jobs[m.job].inputStory == m.story
      && Apply(w, a).db == OrElse(T.PublishStory(w.db, w.now, m.job, m.story, m.puts, w.lifetime, a.cleanupId), w.db)
  {
    assert RunBacked(w, w.media[a.run]);
    hide Inv, T.PublishStory;
  }

  lemma PublishedJob(w: World, a: Action, id: Uuid)
    requires Inv(w) && Enabled(w, a) && a.Publish? && id in w.db.jobs
    ensures id in Apply(w, a).db.jobs && JobAfter(w, a, id, w.db.jobs[id], Apply(w, a).db.jobs[id])
  {
    Publishing(w, a);
    var m := w.media[a.run];
    PublicationJobs(w.db, w.now, m.job, m.story, m.puts, w.lifetime, a.cleanupId);
    hide Inv, Enabled, Apply, T.PublishStory, Pow2;
  }

  lemma FailedJob(w: World, a: Action, id: Uuid)
    requires Inv(w) && Enabled(w, a) && a.FailMedia? && id in w.db.jobs
    ensures id in Apply(w, a).db.jobs && JobAfter(w, a, id, w.db.jobs[id], Apply(w, a).db.jobs[id])
  {
    hide Inv, Enabled, Apply, T.FailMediaJob, Backoff, Pow2, IsProcessing;
    ReportedFailure(w, a);
    var m := w.media[a.run];
    FailureIs(w.db, w.now, m.job, m.story, a.retryable, a.cleanupId);
    if w.db.jobs[m.job].attempts <= 29 {
      MediaBackoffIs(w.db.jobs[m.job].attempts);
    }
  }

  lemma LeftJob(w: World, a: Action, id: Uuid)
    requires !WritesJobs(a) && id in w.db.jobs
    ensures JobAfter(w, a, id, w.db.jobs[id], w.db.jobs[id])
  {
  }

  lemma ClaimedJob(w: World, a: Action, id: Uuid)
    requires Enabled(w, a) && (a.ClaimMedia? || a.Reap? || a.Finalize?) && id in w.db.jobs
    ensures id in Apply(w, a).db.jobs && JobAfter(w, a, id, w.db.jobs[id], Apply(w, a).db.jobs[id])
  {
    hide Backoff;
  }

  predicate WritesJobs(a: Action) {
    a.Finalize? || a.ClaimMedia? || a.Publish? || a.FailMedia? || a.Reap?
  }

  lemma CleanersLeaveJobs(w: World, a: Action)
    requires Enabled(w, a) && (a.ClaimCleanup? || a.DeleteObject? || a.CompleteCleanup? || a.FailCleanup? || a.DropCleanup?)
    ensures Apply(w, a).db.jobs == w.db.jobs
  {
    hide Backoff;
  }

  lemma OthersLeaveJobs(w: World, a: Action)
    requires Enabled(w, a) && !WritesJobs(a)
    requires !(a.ClaimCleanup? || a.DeleteObject? || a.CompleteCleanup? || a.FailCleanup? || a.DropCleanup?)
    ensures Apply(w, a).db.jobs == w.db.jobs
  {
    hide T.ExpiryKeys, VariantKeys, VariantKey, UuidText;
  }

  /**
   * A media job is leased by a claim that finds it free, which counts as an attempt, succeeds with the publication
   * of its story, is requeued ten seconds times a power of two ahead by a failure that may be retried, fails with
   * any other, and is requeued by a sweep when its holder is overdue and attempts are left. Nothing else touches it.
   */
  lemma JobChangesExactly(w: World, a: Action, id: Uuid)
    requires Inv(w) && Enabled(w, a) && id in w.db.jobs
    ensures id in Apply(w, a).db.jobs && JobAfter(w, a, id, w.db.jobs[id], Apply(w, a).db.jobs[id])
    ensures a.ClaimMedia? && a.job == id ==> IsFree(w.db.jobs[id].state, w.db.jobs[id].runAfter, w.now)
  {
    ClaimsAreExactlyOfFreeJobs(w, if a.ClaimMedia? then a.run else 0, id, if a.ClaimMedia? then a.owner else "", if a.ClaimMedia? then a.lease else 0);
    hide Inv, Enabled, Apply, JobAfter, IsFree;
    if a.Publish? {
      PublishedJob(w, a, id);
    } else if a.FailMedia? {
      FailedJob(w, a, id);
    } else if WritesJobs(a) {
      ClaimedJob(w, a, id);
    } else {
      JobsLeft(w, a);
      LeftJob(w, a, id);
    }
  }

  lemma JobsLeft(w: World, a: Action)
    requires Enabled(w, a) && !WritesJobs(a)
    ensures Apply(w, a).db.jobs == w.db.jobs
  {
    hide Enabled, Apply;
    if a.ClaimCleanup? || a.DeleteObject? || a.CompleteCleanup? || a.FailCleanup? || a.DropCleanup? {
      CleanersLeaveJobs(w, a);
    } else {
      OthersLeaveJobs(w, a);
    }
  }

  /** Any claim of a free job is possible, and none of another. */
  lemma ClaimsAreExactlyOfFreeJobs(w: World, run: nat, id: Uuid, owner: string, lease: int)
    ensures Enabled(w, ClaimMedia(run, id, owner, lease)) <==>
      run !in w.media && id in w.db.jobs && IsFree(w.db.jobs[id].state, w.db.jobs[id].runAfter, w.now)
    ensures Enabled(w, ClaimCleanup(run, id, owner, lease)) <==>
      run !in w.cleaners && id in w.db.cleanup && IsFree(w.db.cleanup[id].state, w.db.cleanup[id].runAfter, w.now)
  {
  }

  /** A media job comes with its story, frozen to the uploaded object, queued at once and with three attempts. */
  lemma JobsBegin(w: World, a: Action, id: Uuid)
    requires Enabled(w, a) && id !in w.db.jobs
    ensures id in Apply(w, a).db.jobs <==> a.Finalize? && a.newJob == id
    ensures a.Finalize? && a.newJob == id ==>
      a.upload in w.db.intents &&
      Apply(w, a).db.jobs[id] == MediaJob(a.upload, a.user, w.db.intents[a.upload].objectKey, a.newStory, JobState.Queued, 0, 3, w.now)
  {
    if a.Publish? || a.FailMedia? {
      MediaStepsAddNoJob(w, a, id);
    } else if !WritesJobs(a) {
      JobsLeft(w, a);
      hide Enabled, Apply;
    }
  }

  lemma MediaStepsAddNoJob(w: World, a: Action, id: Uuid)
    requires Enabled(w, a) && (a.Publish? || a.FailMedia?) && id !in w.db.jobs
    ensures id !in Apply(w, a).db.jobs
  {
    hide T.UpsertVariants, Backoff, OriginalOf;
  }

  // -------------------------------------------------------------------- uploads

  /** An upload ends by its finalization in time and by its issuer, or by a sweep after its expiry. */
  lemma UploadChangesExactly(w: World, a: Action, i: Uuid)
    requires Enabled(w, a) && i in w.db.intents
    ensures i in Apply(w, a).db.intents
    ensures var u, u' := w.db.intents[i], Apply(w, a).db.intents[i];
      u' == u.(state :=
        if a.Finalize? && a.upload == i then IntentState.Finalized
        else if a.CollectUploads? && i in a.due then IntentState.Expired
        else u.state)
    ensures a.Finalize? && a.upload == i ==>
      w.db.intents[i].state == Issued && a.user == w.db.intents[i].user && w.now <= w.db.intents[i].expiresAt
    ensures a.CollectUploads? && i in a.due ==> w.db.intents[i].state == Issued && w.db.intents[i].expiresAt <= w.now
  {
    if !OR.WritesIntents(a) {
      OR.IntentsLeft(w, a);
      hide Enabled, Apply;
    }
  }

  lemma UploadsBegin(w: World, a: Action, i: Uuid)
    requires Enabled(w, a) && i !in w.db.intents
    ensures i in Apply(w, a).db.intents <==> a.CreateIntent? && a.id == i
    ensures a.CreateIntent? && a.id == i ==> Apply(w, a).db.intents[i] == UploadIntent(a.user, a.key, w.now + a.ttl, Issued)
  {
    if !OR.WritesIntents(a) {
      OR.IntentsLeft(w, a);
      hide Enabled, Apply;
    }
  }

  // ----------------------------------------------------------------------- views

  predicate WritesViews(a: Action) {
    a.PurgeViews? || a.RecordView? || a.AcknowledgeView?
  }

  lemma MediaStepsLeaveViews(w: World, a: Action)
    requires Enabled(w, a) && (a.Publish? || a.FailMedia? || a.ClaimMedia? || a.PutVariant? || a.DropMedia?)
    ensures Apply(w, a).db.views == w.db.views
  {
    hide T.UpsertVariants, Backoff, OriginalOf;
  }

  lemma CleanersLeaveViews(w: World, a: Action)
    requires Enabled(w, a) && (a.ClaimCleanup? || a.DeleteObject? || a.CompleteCleanup? || a.FailCleanup? || a.DropCleanup?)
    ensures Apply(w, a).db.views == w.db.views
  {
    hide Backoff;
  }

  lemma OthersLeaveViews(w: World, a: Action)
    requires Enabled(w, a) && !WritesViews(a)
    requires !(a.Publish? || a.FailMedia? || a.ClaimMedia? || a.PutVariant? || a.DropMedia?)
    requires !(a.ClaimCleanup? || a.DeleteObject? || a.CompleteCleanup? || a.FailCleanup? || a.DropCleanup?)
    ensures Apply(w, a).db.views == w.db.views
  {
    hide T.ExpiryKeys, VariantKeys;
  }

  lemma ViewsLeft(w: World, a: Action)
    requires Enabled(w, a) && !WritesViews(a)
    ensures Apply(w, a).db.views == w.db.views
  {
    hide Enabled, Apply;
    if a.Publish? || a.FailMedia? || a.ClaimMedia? || a.PutVariant? || a.DropMedia? {
      MediaStepsLeaveViews(w, a);
    } else if a.ClaimCleanup? || a.DeleteObject? || a.CompleteCleanup? || a.FailCleanup? || a.DropCleanup? {
      CleanersLeaveViews(w, a);
    } else {
      OthersLeaveViews(w, a);
    }
  }

  ghost predicate Records(a: Action, v: (Uuid, Uuid)) {
    (a.RecordView? || a.AcknowledgeView?) && (a.story, a.viewer) == v
  }

  /**
   * A view row appears with the first delivery or acknowledgement, dated then, keeps that date and its first
   * acknowledgement, and goes only by a purge that finds it at least as old as the retention.
   */
  lemma ViewChangesExactly(w: World, a: Action, v: (Uuid, Uuid))
    requires Enabled(w, a)
    ensures var views, views' := w.db.views, Apply(w, a).db.views;
      && (v in views' <==> Records(a, v) || (v in views && !(a.PurgeViews? && views[v].deliveredAt + a.retention <= w.now)))
      && (v in views' ==> views'[v].deliveredAt == if v in views then views[v].deliveredAt else w.now)
      && (v in views' ==>
           views'[v].acknowledgedAt == (
             if v in views && views[v].acknowledgedAt.Some? then views[v].acknowledgedAt
             else if a.AcknowledgeView? && Records(a, v) then Some(w.now) else None))
  {
    if !WritesViews(a) {
      ViewsLeft(w, a);
      hide Enabled, Apply;
    }
  }

  // --------------------------------------------------------------- cleanup jobs

  ghost predicate Cleans(w: World, run: nat, id: Uuid) {
    run in w.cleaners && w.cleaners[run].job == id
  }

  ghost predicate CleanupAfter(w: World, a: Action, id: Uuid, c: CleanupJob, c': CleanupJob) {
    && c' == c.(state := c'.state, attempts := c'.attempts, runAfter := c'.runAfter)
    && c'.attempts == (if a.ClaimCleanup? && a.job == id then c.attempts + 1 else c.attempts)
    && c'.state == (
         if a.ClaimCleanup? && a.job == id then Leased(a.owner, w.now + a.lease)
         else if a.CompleteCleanup? && Cleans(w, a.run, id) then Succeeded
         else if a.FailCleanup? && Cleans(w, a.run, id) then
           if w.cleaners[a.run].max <= w.cleaners[a.run].attempts then JobState.Failed else JobState.Queued
         else if a.Reap? && LeaseLost(c.state, c.attempts, c.maxAttempts, w.now) then JobState.Queued
         else c.state)
    && (if a.FailCleanup? && Cleans(w, a.run, id) && w.cleaners[a.run].attempts < w.cleaners[a.run].max
        then w.cleaners[a.run].attempts <= 28 ==> c'.runAfter == w.now + Pow2(w.cleaners[a.run].attempts) * (30 * SECOND)
        else c'.runAfter == c.runAfter)
  }

  lemma ClaimedCleanup(w: World, a: Action, id: Uuid)
    requires Enabled(w, a) && id in w.db.cleanup && (a.ClaimCleanup? || a.DeleteObject? || a.DropCleanup? || a.Reap?)
    ensures id in Apply(w, a).db.cleanup && CleanupAfter(w, a, id, w.db.cleanup[id], Apply(w, a).db.cleanup[id])
  {
    hide Backoff, Pow2;
  }

  lemma EndedCleanup(w: World, a: Action, id: Uuid)
    requires Enabled(w, a) && id in w.db.cleanup && (a.CompleteCleanup? || a.FailCleanup?)
    ensures id in Apply(w, a).db.cleanup && CleanupAfter(w, a, id, w.db.cleanup[id], Apply(w, a).db.cleanup[id])
  {
    if a.FailCleanup? && w.cleaners[a.run].attempts <= 28 {
      CleanupBackoffIs(w.cleaners[a.run].attempts);
    }
    hide Backoff, Pow2;
  }

  lemma MediaStepsLeaveCleanup(w: World, a: Action, id: Uuid)
    requires Enabled(w, a) && id in w.db.cleanup
    requires a.ClaimMedia? || a.PutVariant? || a.DropMedia? || a.Publish? || a.FailMedia?
    ensures id in Apply(w, a).db.cleanup && Apply(w, a).db.cleanup[id] == w.db.cleanup[id]
  {
    hide T.UpsertVariants, Backoff, OriginalOf, VariantKey, UuidText;
  }

  lemma OthersLeaveCleanup(w: World, a: Action, id: Uuid)
    requires Enabled(w, a) && id in w.db.cleanup
    requires !(a.ClaimCleanup? || a.DeleteObject? || a.CompleteCleanup? || a.FailCleanup? || a.DropCleanup? || a.Reap?)
    requires !(a.ClaimMedia? || a.PutVariant? || a.DropMedia? || a.Publish? || a.FailMedia?)
    ensures id in Apply(w, a).db.cleanup && Apply(w, a).db.cleanup[id] == w.db.cleanup[id]
  {
    hide T.ExpiryKeys, VariantKeys;
  }

  /** The same of a cleanup job, whose failure is judged by the attempts its handler was given at the claim. */
  lemma CleanupChangesExactly(w: World, a: Action, id: Uuid)
    requires Enabled(w, a) && id in w.db.cleanup
    ensures id in Apply(w, a).db.cleanup && CleanupAfter(w, a, id, w.db.cleanup[id], Apply(w, a).db.cleanup[id])
    ensures a.ClaimCleanup? && a.job == id ==> IsFree(w.db.cleanup[id].state, w.db.cleanup[id].runAfter, w.now)
  {
    if a.CompleteCleanup? || a.FailCleanup? {
      EndedCleanup(w, a, id);
    } else if a.ClaimCleanup? || a.DeleteObject? || a.DropCleanup? || a.Reap? {
      ClaimedCleanup(w, a, id);
    } else if a.ClaimMedia? || a.PutVariant? || a.DropMedia? || a.Publish? || a.FailMedia? {
      MediaStepsLeaveCleanup(w, a, id);
      hide Enabled, Apply;
    } else {
      OthersLeaveCleanup(w, a, id);
      hide Enabled, Apply;
    }
    hide Apply, CleanupAfter;
  }

  /** The handler's step that schedules the original: its story is published now or given up. */
  ghost predicate Settles(w: World, a: Action, job: Uuid) {
    && (a.Publish? || a.FailMedia?) && a.run in w.media && w.media[a.run].job == job
    && (a.Publish? ==> IsProcessing(w, w.media[a.run].story)) && (a.FailMedia? ==> GivesUp(w, a, job))
  }

  /** The object keys of the variant rows of a story. */
  ghost function RowKeys(db: Db, story: Uuid): set<string> {
    set v | v in db.variants && v.0 == story :: db.variants[v]
  }

  lemma RowKeysAre(db: Db, story: Uuid)
    ensures RowKeys(db, story) == VariantKeys(db.variants, story)
  {
    forall key | key in RowKeys(db, story)
      ensures key in VariantKeys(db.variants, story)
    {
      var v :| v in db.variants && v.0 == story && db.variants[v] == key;
      assert (story, v.1) in db.variants;
    }
  }

  /** The delete_objects job `id` that a step inserts, by the keys on its list. */
  ghost predicate Inserts(w: World, a: Action, id: Uuid, keys: set<string>) {
    || ((a.Publish? || a.FailMedia?) && a.cleanupId == id && a.run in w.media && w.media[a.run].job in w.db.jobs
        && Settles(w, a, w.media[a.run].job) && keys == {w.db.jobs[w.media[a.run].job].inputKey})
    || (a.Delete? && a.cleanupId == id && Deletes(w, a, a.story) && keys == RowKeys(w.db, a.story))
    || (a.Expire? && id in a.batch
        && keys == if RowKeys(w.db, a.batch[id]) == {} then {""} else RowKeys(w.db, a.batch[id]))
    || (a.CollectUploads? && a.cleanupId == id && a.due != {}
        && keys == set i | i in a.due && i in w.db.intents :: w.db.intents[i].objectKey)
  }

  ghost predicate Begun(w: World, a: Action, id: Uuid, db': Db) {
    && (forall keys :: Inserts(w, a, id, keys) ==> id in db'.cleanup)
    && (id in db'.cleanup ==>
          var c := db'.cleanup[id];
          Inserts(w, a, id, c.keys) && c == CleanupJob(c.keys, JobState.Queued, 0, 8, w.now))
  }

  lemma InputIsOriginal(w: World, job: Uuid)
    requires Inv(w) && job in w.db.jobs
    ensures OriginalOf(w.db, job) == Some(w.db.jobs[job].inputKey)
  {
    OM.InvParts(w);
    assert JobLinked(w.db, job);
    hide Inv;
  }

  lemma PublicationSchedules(db: Db, now: int, job: Uuid, story: Uuid, vs: seq<Variant>, lifetime: int, cleanupId: Uuid)
    requires OriginalOf(db, job).Some?
    ensures var r := T.PublishStory(db, now, job, story, vs, lifetime, cleanupId);
      && (r.Some? <==> story in db.stories && db.stories[story].state.Processing?)
      && (r.Some? ==> r.value.cleanup == db.cleanup[cleanupId := NewCleanup({OriginalOf(db, job).value}, now)])
  {
    hide T.UpsertVariants;
  }

  lemma FailureSchedules(db: Db, now: int, job: Uuid, story: Uuid, retryable: bool, cleanupId: Uuid)
    requires job in db.jobs && OriginalOf(db, job).Some?
    ensures var r, j := T.FailMediaJob(db, now, job, story, retryable, cleanupId), db.jobs[job];
      r.Some? && r.value.cleanup ==
        if retryable && j.attempts < j.maxAttempts then db.cleanup
        else db.cleanup[cleanupId := NewCleanup({OriginalOf(db, job).value}, now)]
  {
    hide Backoff;
  }

  lemma MediaStepInserts(w: World, a: Action, id: Uuid)
    requires Inv(w) && Enabled(w, a) && (a.Publish? || a.FailMedia?) && id !in w.db.cleanup
    ensures Begun(w, a, id, Apply(w, a).db)
  {
    hide Inv, Enabled, Apply, OriginalOf, T.PublishStory, T.FailMediaJob;
    if a.Publish? {
      Publishing(w, a);
    } else {
      ReportedFailure(w, a);
    }
    var m := w.media[a.run];
    InputIsOriginal(w, m.job);
    PublicationSchedules(w.db, w.now, m.job, m.story, m.puts, w.lifetime, a.cleanupId);
    if a.FailMedia? {
      FailureSchedules(w.db, w.now, m.job, m.story, a.retryable, a.cleanupId);
    }
  }

  lemma DeletionInserts(w: World, a: Action, id: Uuid)
    requires Enabled(w, a) && a.Delete? && id !in w.db.cleanup
    ensures Begun(w, a, id, Apply(w, a).db)
  {
    RowKeysAre(w.db, a.story);
    hide VariantKeys, RowKeys;
  }

  lemma ExpiryInserts(w: World, a: Action, id: Uuid)
    requires Enabled(w, a) && a.Expire? && id !in w.db.cleanup
    ensures Begun(w, a, id, Apply(w, a).db)
  {
    assert id in a.batch <==> id in Apply(w, a).db.cleanup;
    if id in a.batch {
      RowKeysAre(w.db, a.batch[id]);
      assert Apply(w, a).db.cleanup[id] == NewCleanup(T.ExpiryKeys(w.db.variants, a.batch[id]), w.now);
    }
    hide VariantKeys, RowKeys, Enabled, Apply;
  }

  lemma CollectionInserts(w: World, a: Action, id: Uuid)
    requires Enabled(w, a) && a.CollectUploads? && id !in w.db.cleanup
    ensures Begun(w, a, id, Apply(w, a).db)
  {
  }

  lemma NothingInserted(w: World, a: Action, id: Uuid)
    requires Inv(w) && Enabled(w, a) && !OM.Schedules(a) && id !in w.db.cleanup
    ensures Begun(w, a, id, Apply(w, a).db)
  {
    StepKept(w, a);
    OM.OthersScheduleNothing(w, a);
    hide Inv, Enabled, Apply, Evolves, RowKeys;
  }

  /**
   * A delete_objects job comes into being with a publication or a failure for good, for the original; with a
   * deletion or an expiry, for the variants; or with a sweep of abandoned uploads. It is queued at once with eight attempts.
   */
  lemma CleanupBegins(w: World, a: Action, id: Uuid)
    requires Inv(w) && Enabled(w, a) && id !in w.db.cleanup
    ensures Begun(w, a, id, Apply(w, a).db)
  {
    hide Inv, Enabled, Apply, Begun;
    if a.Publish? || a.FailMedia? {
      MediaStepInserts(w, a, id);
    } else if a.Delete? {
      DeletionInserts(w, a, id);
    } else if a.Expire? {
      ExpiryInserts(w, a, id);
    } else if a.CollectUploads? {
      CollectionInserts(w, a, id);
    } else {
      NothingInserted(w, a, id);
    }
  }

  // -------------------------------------------------------------------- variants

  /** The last output of a kind among those an attempt has stored. */
  ghost predicate LastOf(puts: seq<Variant>, kind: VariantKind, key: string) {
    exists k :: 0 <= k < |puts| && puts[k] == Variant(kind, key) && forall l :: k < l < |puts| ==> puts[l].kind != kind
  }

  ghost predicate NoneOf(puts: seq<Variant>, kind: VariantKind) {
    forall k :: 0 <= k < |puts| ==> puts[k].kind != kind
  }

  lemma {:induction false} UpsertsAre(m: map<(Uuid, VariantKind), string>, story: Uuid, vs: seq<Variant>, v: (Uuid, VariantKind))
    ensures var m' := T.UpsertVariants(m, story, vs);
      if v.0 != story || NoneOf(vs, v.1) then (v in m' <==> v in m) && (v in m ==> m'[v] == m[v])
      else v in m' && LastOf(vs, v.1, m'[v])
  {
    if vs != [] {
      var init, last := vs[..|vs| - 1], vs[|vs| - 1];
      UpsertsAre(m, story, init, v);
      var m' := T.UpsertVariants(m, story, vs);
      if v.0 == story && last.kind == v.1 {
        assert vs[|vs| - 1] == Variant(v.1, m'[v]);
      } else if v.0 == story && !NoneOf(vs, v.1) {
        assert !NoneOf(init, v.1);
        var k :| 0 <= k < |init| && init[k] == Variant(v.1, m'[v]) && forall l :: k < l < |init| ==> init[l].kind != v.1;
        assert vs[k] == Variant(v.1, m'[v]);
      }
    }
  }

  /** Variant rows are written by publications alone, each with the last output of its kind. */
  lemma VariantsChangeExactly(w: World, a: Action, v: (Uuid, VariantKind))
    requires Inv(w) && Enabled(w, a)
    ensures var m, m' := w.db.variants, Apply(w, a).db.variants;
      if a.Publish? && Publishes(w, a, v.0) && !NoneOf(w.media[a.run].puts, v.1)
      then v in m' && LastOf(w.media[a.run].puts, v.1, m'[v])
      else (v in m' <==> v in m) && (v in m ==> m'[v] == m[v])
  {
    hide Inv, Enabled, Apply, Evolves, T.UpsertVariants, NoneOf, LastOf, T.PublishStory;
    if a.Publish? {
      Publishing(w, a);
      var m := w.media[a.run];
      UpsertsAre(w.db.variants, m.story, m.puts, v);
      PublicationVariants(w.db, w.now, m.job, m.story, m.puts, w.lifetime, a.cleanupId);
    } else if a.FailMedia? || a.Delete? || a.Expire? || a.CollectUploads? {
      SchedulingLeavesVariants(w, a);
    } else {
      StepKept(w, a);
      EvolvedIsFixed(w.db, Apply(w, a).db);
      OM.OthersScheduleNothing(w, a);
    }
  }

  lemma EvolvedIsFixed(db: Db, db': Db)
    requires Evolves(db, db')
    ensures Fixed(db, db')
  {
  }

  lemma PublicationVariants(db: Db, now: int, job: Uuid, story: Uuid, vs: seq<Variant>, lifetime: int, cleanupId: Uuid)
    ensures var r := T.PublishStory(db, now, job, story, vs, lifetime, cleanupId);
      && (r.Some? <==> story in db.stories && db.stories[story].state.Processing?)
      && (r.Some? ==> r.value.variants == T.UpsertVariants(db.variants, story, vs))
  {
    hide T.UpsertVariants;
  }

  lemma SchedulingLeavesVariants(w: World, a: Action)
    requires Enabled(w, a) && (a.FailMedia? || a.Delete? || a.Expire? || a.CollectUploads?)
    ensures Apply(w, a).db.variants == w.db.variants
  {
    hide Backoff, OriginalOf, VariantKeys, T.ExpiryKeys;
  }
}
