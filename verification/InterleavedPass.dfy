/**
 * A cleanup pass among everyone else's steps. Take the steps of the passes out of a run: what is left is a run, and
 * nobody can tell from what they read which of the two has happened.
 */
module InterleavedPass {
  import opened Options
  import opened ObjectKeys
  import opened Tables
  import opened PipelineInvariant
  import opened PipelineSafety
  import opened Protocol
  import opened SocialGraph
  import opened Visibility
  import opened FeedTheorems
  import CR = CleanupRetention
  import PT = PipelineTheorems
  import T = Transactions

  // --------------------------------------------------------------- the relation

  predicate Lapsed(s: Story, now: int) {
    s.publishedAt.Some? && s.expiresAt.Some? && s.expiresAt.value <= now
  }

  /** The same row, or two states of a story whose time is up. */
  predicate SameStory(s: Story, t: Story, now: int) {
    s == t || (
      && Lapsed(s, now) && s.publishedAt == t.publishedAt && s.expiresAt == t.expiresAt
      && s.author == t.author && s.job == t.job
      && (s.state.Published? || s.state.Gone()) && (t.state.Published? || t.state.Gone()))
  }

  /** The same row, or one whose lapsed lease has been reaped on one side. */
  predicate SameJob(j: MediaJob, k: MediaJob, now: int) {
    j == k || (j == k.(state := JobState.Queued) && k.state.Leased? && k.state.until < now)
  }

  /** The same row, or an overdue intent that has been collected on one side. */
  predicate SameIntent(i: UploadIntent, k: UploadIntent, now: int) {
    i == k || (i == k.(state := IntentState.Expired) && k.state.Issued? && k.expiresAt <= now)
  }

  ghost predicate SameStories(d: Db, e: Db, now: int) {
    d.stories.Keys == e.stories.Keys && forall s :: s in d.stories ==> SameStory(d.stories[s], e.stories[s], now)
  }

  ghost predicate SameJobs(d: Db, e: Db, now: int) {
    d.jobs.Keys == e.jobs.Keys && forall j :: j in d.jobs ==> SameJob(d.jobs[j], e.jobs[j], now)
  }

  ghost predicate SameIntents(d: Db, e: Db, now: int) {
    d.intents.Keys == e.intents.Keys && forall i :: i in d.intents ==> SameIntent(d.intents[i], e.intents[i], now)
  }

  /** The same callers have seen the stories whose time is not up. */
  ghost predicate SameViews(d: Db, e: Db, now: int) {
    forall s, v :: s in d.stories && !Lapsed(d.stories[s], now) ==> ((s, v) in d.views <==> (s, v) in e.views)
  }

  /** `d` is `e` but for what cleanup passes have done to it. */
  ghost predicate Swept(d: Db, e: Db, now: int) {
    && SameStories(d, e, now) && SameJobs(d, e, now) && SameIntents(d, e, now) && SameViews(d, e, now)
    && d.variants == e.variants
  }

  ghost predicate Mirrors(w: World, u: World) {
    && w.now == u.now && w.lifetime == u.lifetime && w.media == u.media && w.readers == u.readers
    && Swept(w.db, u.db, w.now)
  }

  lemma MirrorsItself(w: World)
    ensures Mirrors(w, w)
  {
  }

  lemma SweptLater(d: Db, e: Db, now: int, later: int)
    requires Swept(d, e, now) && now <= later
    ensures Swept(d, e, later)
  {
  }

  // ------------------------------------------------------- the steps of a pass

  predicate IsSweep(a: Action) {
    || a.Reap? || a.Expire? || a.CollectUploads? || a.PurgeViews?
    || a.ClaimCleanup? || a.DeleteObject? || a.CompleteCleanup? || a.FailCleanup? || a.DropCleanup?
  }

  lemma ReapSwept(d: Db, e: Db, now: int)
    requires Swept(d, e, now)
    ensures Swept(T.ReapExpiredLeases(d, now), e, now)
  {
  }

  lemma ExpireSwept(d: Db, e: Db, now: int, lifetime: int, batch: map<Uuid, Uuid>)
    requires Swept(d, e, now) && Lifecycle(d, now, lifetime)
    requires forall c :: c in batch ==> batch[c] in d.stories && StoryDue(d.stories[batch[c]], now)
    ensures Swept(T.ExpireStories(d, now, batch), e, now)
  {
    var d' := T.ExpireStories(d, now, batch);
    forall s | s in d'.stories
      ensures SameStory(d'.stories[s], e.stories[s], now) && (Lapsed(d'.stories[s], now) <==> Lapsed(d.stories[s], now))
    {
      assert SameStory(d.stories[s], e.stories[s], now) && Dated(d.stories[s], now, lifetime);
      if s in batch.Values {
        assert StoryDue(d.stories[s], now);
      }
    }
  }

  lemma CollectSwept(d: Db, e: Db, now: int, due: set<Uuid>, cleanupId: Uuid)
    requires Swept(d, e, now) && forall i :: i in due ==> i in d.intents && IntentDue(d.intents[i], now)
    ensures Swept(T.GCAbandonedUploads(d, now, due, cleanupId), e, now)
  {
  }

  lemma PurgeSwept(d: Db, e: Db, now: int, lifetime: int, retention: int)
    requires Swept(d, e, now) && Lifecycle(d, now, lifetime) && ViewsDated(d) && lifetime <= retention
    ensures Swept(T.PurgeViews(d, now, retention), e, now)
  {
    var d' := T.PurgeViews(d, now, retention);
    forall s, v | s in d.stories && !Lapsed(d.stories[s], now)
      ensures (s, v) in d'.views <==> (s, v) in e.views
    {
      if (s, v) in d.views {
        assert ViewDated(d, (s, v), d.views[(s, v)].deliveredAt) && Dated(d.stories[s], now, lifetime);
      }
    }
    hide ViewsDated, Lifecycle, Lapsed;
  }

  /** The cleanup jobs themselves are nobody else's business. */
  lemma CleanupSwept(d: Db, d': Db, e: Db, now: int)
    requires Swept(d, e, now) && d' == d.(cleanup := d'.cleanup)
    ensures Swept(d', e, now)
  {
  }

  lemma CleanersSwept(w: World, a: Action)
    requires Enabled(w, a) && (a.ClaimCleanup? || a.DeleteObject? || a.CompleteCleanup? || a.FailCleanup? || a.DropCleanup?)
    ensures var w' := Apply(w, a);
      w'.db == w.db.(cleanup := w'.db.cleanup) && w'.now == w.now && w'.lifetime == w.lifetime && w'.media == w.media && w'.readers == w.readers
  {
  }

  predicate SweepsTables(a: Action) {
    a.Reap? || a.Expire? || a.CollectUploads? || a.PurgeViews?
  }

  function TablesAfter(db: Db, now: int, a: Action): Db
    requires SweepsTables(a)
  {
    match a
    case Reap => T.ReapExpiredLeases(db, now)
    case Expire(batch) => T.ExpireStories(db, now, batch)
    case CollectUploads(due, cleanupId) => T.GCAbandonedUploads(db, now, due, cleanupId)
    case PurgeViews(retention) => T.PurgeViews(db, now, retention)
  }

  lemma SweepApplies(w: World, a: Action)
    requires Enabled(w, a) && SweepsTables(a)
    ensures Apply(w, a) == w.(db := TablesAfter(w.db, w.now, a))
    ensures a.Expire? ==> forall c :: c in a.batch ==> a.batch[c] in w.db.stories && StoryDue(w.db.stories[a.batch[c]], w.now)
    ensures a.CollectUploads? ==> forall i :: i in a.due ==> i in w.db.intents && IntentDue(w.db.intents[i], w.now)
  {
    hide T.ReapExpiredLeases, T.ExpireStories, T.GCAbandonedUploads, T.PurgeViews;
  }

  lemma TablesSwept(d: Db, e: Db, now: int, lifetime: int, a: Action)
    requires SweepsTables(a) && Swept(d, e, now) && Lifecycle(d, now, lifetime) && ViewsDated(d)
    requires a.Expire? ==> forall c :: c in a.batch ==> a.batch[c] in d.stories && StoryDue(d.stories[a.batch[c]], now)
    requires a.CollectUploads? ==> forall i :: i in a.due ==> i in d.intents && IntentDue(d.intents[i], now)
    requires a.PurgeViews? ==> lifetime <= a.retention
    ensures Swept(TablesAfter(d, now, a), e, now)
  {
    hide Swept, Lifecycle, ViewsDated, T.ReapExpiredLeases, T.ExpireStories, T.GCAbandonedUploads, T.PurgeViews;
    match a
    case Reap => ReapSwept(d, e, now);
    case Expire(batch) => ExpireSwept(d, e, now, lifetime, batch);
    case CollectUploads(due, cleanupId) => CollectSwept(d, e, now, due, cleanupId);
    case PurgeViews(retention) => PurgeSwept(d, e, now, lifetime, retention);
  }

  lemma InvDates(w: World)
    requires Inv(w)
    ensures Lifecycle(w.db, w.now, w.lifetime) && ViewsDated(w.db)
  {
  }

  /** What a pass does is invisible to the mirror. */
  lemma SweepMirrors(w: World, u: World, a: Action)
    requires Inv(w) && Mirrors(w, u) && Enabled(w, a) && IsSweep(a) && (a.PurgeViews? ==> w.lifetime <= a.retention)
    ensures Mirrors(Apply(w, a), u)
  {
    hide Inv, Swept, Apply, Enabled, TablesAfter, Lifecycle, ViewsDated;
    if SweepsTables(a) {
      InvDates(w);
      SweepApplies(w, a);
      TablesSwept(w.db, u.db, w.now, w.lifetime, a);
    } else {
      CleanersSwept(w, a);
      CleanupSwept(w.db, Apply(w, a).db, u.db, w.now);
    }
  }

  // ------------------------------------------------------ everyone else's steps

  lemma CreateMirrored(d: Db, e: Db, now: int, id: Uuid, user: Uuid, key: string, expiresAt: int)
    requires Swept(d, e, now)
    ensures Swept(T.CreateUploadIntent(d, id, user, key, expiresAt), T.CreateUploadIntent(e, id, user, key, expiresAt), now)
  {
  }

  lemma FinalizeMirrored(d: Db, e: Db, now: int, user: Uuid, upload: Uuid, job: Uuid, story: Uuid, draft: Draft)
    requires Swept(d, e, now) && ViewsDated(d) && ViewsDated(e)
    requires T.FinalizeCheck(d, now, user, upload).Fresh? && story !in d.stories
    ensures T.FinalizeCheck(e, now, user, upload).Fresh?
    ensures Swept(T.FinalizeUpload(d, now, user, upload, job, story, draft), T.FinalizeUpload(e, now, user, upload, job, story, draft), now)
  {
    assert SameIntent(d.intents[upload], e.intents[upload], now);
    NoViews(d, story);
    NoViews(e, story);
    hide ViewsDated;
  }

  lemma NoViews(d: Db, story: Uuid)
    requires ViewsDated(d) && story !in d.stories
    ensures forall v :: (story, v) !in d.views
  {
  }

  lemma ClaimMirrored(d: Db, e: Db, now: int, job: Uuid, owner: string, lease: int)
    requires Swept(d, e, now) && MediaDue(d, job, now)
    ensures MediaDue(e, job, now) && d.jobs[job].inputStory == e.jobs[job].inputStory
    ensures Swept(T.ClaimMediaJob(d, job, owner, now, lease), T.ClaimMediaJob(e, job, owner, now, lease), now)
  {
    assert SameJob(d.jobs[job], e.jobs[job], now);
  }

  lemma CleanupIgnored(d: Db, d': Db, e: Db, e': Db, now: int)
    requires Swept(d, e, now) && d' == d.(cleanup := d'.cleanup) && e' == e.(cleanup := e'.cleanup)
    ensures Swept(d', e', now)
  {
  }

  lemma ScheduleMirrored(d: Db, e: Db, now: int, job: Uuid, cleanupId: Uuid)
    requires Swept(d, e, now)
    ensures Swept(T.ScheduleOriginal(d, job, cleanupId, now), T.ScheduleOriginal(e, job, cleanupId, now), now)
  {
    hide OriginalOf, Swept;
    CleanupIgnored(d, T.ScheduleOriginal(d, job, cleanupId, now), e, T.ScheduleOriginal(e, job, cleanupId, now), now);
  }

  /** A row that is still processing is the same on both sides. */
  lemma ProcessingMirrored(d: Db, e: Db, now: int, lifetime: int, story: Uuid)
    requires Swept(d, e, now) && Lifecycle(d, now, lifetime)
    ensures story in d.stories <==> story in e.stories
    ensures story in d.stories ==> (d.stories[story].state.Processing? <==> e.stories[story].state.Processing?)
    ensures story in d.stories && d.stories[story].state.Processing? ==>
      d.stories[story] == e.stories[story] && !Lapsed(d.stories[story], now)
  {
    if story in d.stories {
      assert SameStory(d.stories[story], e.stories[story], now) && Dated(d.stories[story], now, lifetime);
    }
  }

  function Finished(d: Db, job: Uuid, state: JobState): Db {
    if job in d.jobs then d.(jobs := d.jobs[job := d.jobs[job].(state := state)]) else d
  }

  lemma JobMirrored(d: Db, e: Db, now: int, job: Uuid, state: JobState)
    requires Swept(d, e, now)
    ensures Swept(Finished(d, job, state), Finished(e, job, state), now)
  {
    if job in d.jobs {
      assert SameJob(d.jobs[job], e.jobs[job], now);
    }
  }

  function Rewritten(d: Db, story: Uuid, s: Story, variants: map<(Uuid, VariantKind), string>): Db {
    d.(variants := variants, stories := d.stories[story := s])
  }

  lemma RestoryMirrored(d: Db, e: Db, now: int, story: Uuid, s: Story, variants: map<(Uuid, VariantKind), string>)
    requires Swept(d, e, now) && story in d.stories && !Lapsed(d.stories[story], now)
    ensures Swept(Rewritten(d, story, s, variants), Rewritten(e, story, s, variants), now)
  {
  }

  lemma PublishMirrored(d: Db, e: Db, now: int, lifetime: int, job: Uuid, story: Uuid, vs: seq<Variant>, cleanupId: Uuid)
    requires Swept(d, e, now) && Lifecycle(d, now, lifetime)
    ensures Swept(OrElse(T.PublishStory(d, now, job, story, vs, lifetime, cleanupId), d),
                  OrElse(T.PublishStory(e, now, job, story, vs, lifetime, cleanupId), e), now)
  {
    ProcessingMirrored(d, e, now, lifetime, story);
    assert d.variants == e.variants;
    hide Swept, T.UpsertVariants, T.ScheduleOriginal, Lifecycle, Lapsed;
    if story in d.stories && d.stories[story].state.Processing? {
      var s := d.stories[story].(state := Published, publishedAt := Some(now), expiresAt := Some(now + lifetime));
      var variants := T.UpsertVariants(d.variants, story, vs);
      RestoryMirrored(d, e, now, story, s, variants);
      var (d1, e1) := (Rewritten(d, story, s, variants), Rewritten(e, story, s, variants));
      JobMirrored(d1, e1, now, job, Succeeded);
      ScheduleMirrored(Finished(d1, job, Succeeded), Finished(e1, job, Succeeded), now, job, cleanupId);
    }
  }

  lemma RetryMirrored(d: Db, e: Db, now: int, job: Uuid, runAfter: int)
    requires Swept(d, e, now) && job in d.jobs
    ensures job in e.jobs && d.jobs[job].attempts == e.jobs[job].attempts && d.jobs[job].maxAttempts == e.jobs[job].maxAttempts
    ensures Swept(d.(jobs := d.jobs[job := d.jobs[job].(state := JobState.Queued, runAfter := runAfter)]),
                  e.(jobs := e.jobs[job := e.jobs[job].(state := JobState.Queued, runAfter := runAfter)]), now)
  {
    assert SameJob(d.jobs[job], e.jobs[job], now);
  }

  function Abandoned(d: Db, story: Uuid): Db {
    if story in d.stories && d.stories[story].state.Processing?
    then d.(stories := d.stories[story := d.stories[story].(state := StoryState.Failed)]) else d
  }

  lemma AbandonMirrored(d: Db, e: Db, now: int, lifetime: int, story: Uuid)
    requires Swept(d, e, now) && Lifecycle(d, now, lifetime)
    ensures Swept(Abandoned(d, story), Abandoned(e, story), now)
  {
    ProcessingMirrored(d, e, now, lifetime, story);
    if story in d.stories && d.stories[story].state.Processing? {
      RestoryMirrored(d, e, now, story, d.stories[story].(state := StoryState.Failed), d.variants);
    }
  }

  lemma LifecycleOfFinished(d: Db, now: int, lifetime: int, job: Uuid, state: JobState)
    requires Lifecycle(d, now, lifetime)
    ensures Lifecycle(Finished(d, job, state), now, lifetime)
  {
  }

  /** Giving a job up, one row after the other. */
  lemma GivingUp(d: Db, now: int, job: Uuid, story: Uuid, retryable: bool, cleanupId: Uuid)
    requires job in d.jobs
    ensures var j := d.jobs[job];
      OrElse(T.FailMediaJob(d, now, job, story, retryable, cleanupId), d) ==
        if retryable && j.attempts < j.maxAttempts
        then d.(jobs := d.jobs[job := j.(state := JobState.Queued, runAfter := now + Backoff(j.attempts, MEDIA_BACKOFF))])
        else T.ScheduleOriginal(Abandoned(Finished(d, job, JobState.Failed), story), job, cleanupId, now)
  {
    hide T.ScheduleOriginal, Backoff;
  }

  lemma FailMirrored(d: Db, e: Db, now: int, lifetime: int, job: Uuid, story: Uuid, retryable: bool, cleanupId: Uuid)
    requires Swept(d, e, now) && Lifecycle(d, now, lifetime) && job in d.jobs
    ensures Swept(OrElse(T.FailMediaJob(d, now, job, story, retryable, cleanupId), d),
                  OrElse(T.FailMediaJob(e, now, job, story, retryable, cleanupId), e), now)
  {
    hide Swept, T.ScheduleOriginal, T.FailMediaJob, OrElse, Abandoned, Finished, Lifecycle, Backoff;
    var j := d.jobs[job];
    RetryMirrored(d, e, now, job, now + Backoff(j.attempts, MEDIA_BACKOFF));
    GivingUp(d, now, job, story, retryable, cleanupId);
    GivingUp(e, now, job, story, retryable, cleanupId);
    if !(retryable && j.attempts < j.maxAttempts) {
      JobMirrored(d, e, now, job, JobState.Failed);
      LifecycleOfFinished(d, now, lifetime, job, JobState.Failed);
      var (d1, e1) := (Finished(d, job, JobState.Failed), Finished(e, job, JobState.Failed));
      AbandonMirrored(d1, e1, now, lifetime, story);
      ScheduleMirrored(Abandoned(d1, story), Abandoned(e1, story), now, job, cleanupId);
    }
  }

  /** Writing one story's row on each side, when the two rows match. */
  lemma RowMirrored(d: Db, e: Db, now: int, story: Uuid, s: Story, t: Story)
    requires Swept(d, e, now) && story in d.stories
    requires SameStory(s, t, now) && (Lapsed(s, now) <==> Lapsed(d.stories[story], now))
    ensures Swept(d.(stories := d.stories[story := s]), e.(stories := e.stories[story := t]), now)
  {
  }

  function RowDeleted(s: Story, actor: Uuid, moderator: bool): Story {
    if !(s.state.Published? || s.state.Processing?) || (!moderator && s.author != actor) then s
    else s.(state := if moderator then Removed else Deleted)
  }

  lemma DeleteWrites(d: Db, now: int, actor: Uuid, story: Uuid, moderator: bool, cleanupId: Uuid)
    requires story in d.stories
    ensures var d' := OrElse(T.DeleteStory(d, now, actor, story, moderator, cleanupId), d);
      d' == d.(stories := d.stories[story := RowDeleted(d.stories[story], actor, moderator)], cleanup := d'.cleanup)
  {
    hide VariantKeys;
    assert d.stories[story := d.stories[story]] == d.stories;
  }

  lemma DeleteMirrored(d: Db, e: Db, now: int, lifetime: int, actor: Uuid, story: Uuid, moderator: bool, cleanupId: Uuid)
    requires Swept(d, e, now) && Lifecycle(d, now, lifetime)
    ensures Swept(OrElse(T.DeleteStory(d, now, actor, story, moderator, cleanupId), d),
                  OrElse(T.DeleteStory(e, now, actor, story, moderator, cleanupId), e), now)
  {
    assert d.stories.Keys == e.stories.Keys;
    if story in d.stories {
      var s, t := RowDeleted(d.stories[story], actor, moderator), RowDeleted(e.stories[story], actor, moderator);
      assert SameStory(d.stories[story], e.stories[story], now) && Dated(d.stories[story], now, lifetime);
      assert SameStory(s, t, now) && (Lapsed(s, now) <==> Lapsed(d.stories[story], now));
      DeleteWrites(d, now, actor, story, moderator, cleanupId);
      DeleteWrites(e, now, actor, story, moderator, cleanupId);
      hide Swept, RowDeleted, Lifecycle, T.DeleteStory;
      RowMirrored(d, e, now, story, s, t);
      CleanupIgnored(d.(stories := d.stories[story := s]), OrElse(T.DeleteStory(d, now, actor, story, moderator, cleanupId), d),
                     e.(stories := e.stories[story := t]), OrElse(T.DeleteStory(e, now, actor, story, moderator, cleanupId), e), now);
    }
  }

  function RowUpdated(s: Story, actor: Uuid, edit: Edit): Story {
    if s.author != actor || !s.state.Published? then s else s.(audience := T.Edited(s.audience, edit))
  }

  lemma UpdateWrites(d: Db, actor: Uuid, story: Uuid, edit: Edit)
    requires story in d.stories
    ensures OrElse(T.UpdateStory(d, actor, story, edit), d) == d.(stories := d.stories[story := RowUpdated(d.stories[story], actor, edit)])
  {
    assert d.stories[story := d.stories[story]] == d.stories;
  }

  lemma UpdateMirrored(d: Db, e: Db, now: int, actor: Uuid, story: Uuid, edit: Edit)
    requires Swept(d, e, now)
    ensures Swept(OrElse(T.UpdateStory(d, actor, story, edit), d), OrElse(T.UpdateStory(e, actor, story, edit), e), now)
  {
    assert d.stories.Keys == e.stories.Keys;
    if story in d.stories {
      var s, t := RowUpdated(d.stories[story], actor, edit), RowUpdated(e.stories[story], actor, edit);
      assert SameStory(d.stories[story], e.stories[story], now);
      assert SameStory(s, t, now) && (Lapsed(s, now) <==> Lapsed(d.stories[story], now));
      UpdateWrites(d, actor, story, edit);
      UpdateWrites(e, actor, story, edit);
      hide Swept, RowUpdated, T.UpdateStory;
      RowMirrored(d, e, now, story, s, t);
    }
  }

  /** One more row of the same caller on each side. */
  lemma ViewsMirrored(d: Db, d': Db, e: Db, e': Db, now: int, v: (Uuid, Uuid))
    requires Swept(d, e, now) && d' == d.(views := d'.views) && e' == e.(views := e'.views)
    requires d'.views.Keys == d.views.Keys + {v} && e'.views.Keys == e.views.Keys + {v}
    ensures Swept(d', e', now)
  {
    forall s, x | s in d'.stories && !Lapsed(d'.stories[s], now)
      ensures (s, x) in d'.views <==> (s, x) in e'.views
    {
      assert (s, x) in d'.views <==> (s, x) in d'.views.Keys;
      assert (s, x) in e'.views <==> (s, x) in e'.views.Keys;
    }
  }

  lemma ViewRecorded(d: Db, now: int, story: Uuid, viewer: Uuid)
    ensures var d' := T.RecordView(d, now, story, viewer); d' == d.(views := d'.views) && d'.views.Keys == d.views.Keys + {(story, viewer)}
    ensures var d' := T.AcknowledgeView(d, now, story, viewer); d' == d.(views := d'.views) && d'.views.Keys == d.views.Keys + {(story, viewer)}
  {
  }

  lemma ViewMirrored(d: Db, e: Db, now: int, story: Uuid, viewer: Uuid)
    requires Swept(d, e, now)
    ensures Swept(T.RecordView(d, now, story, viewer), T.RecordView(e, now, story, viewer), now)
    ensures Swept(T.AcknowledgeView(d, now, story, viewer), T.AcknowledgeView(e, now, story, viewer), now)
  {
    ViewRecorded(d, now, story, viewer);
    ViewRecorded(e, now, story, viewer);
    hide Swept, T.RecordView, T.AcknowledgeView;
    ViewsMirrored(d, T.RecordView(d, now, story, viewer), e, T.RecordView(e, now, story, viewer), now, (story, viewer));
    ViewsMirrored(d, T.AcknowledgeView(d, now, story, viewer), e, T.AcknowledgeView(e, now, story, viewer), now, (story, viewer));
  }

  // --------------------------------------------------------------- the mirror run

  /** The id a step inserts a cleanup row under, if it is not a step of a pass. */
  predicate Draws(a: Action) {
    a.Publish? || a.FailMedia? || a.Delete?
  }

  /** The ids of new cleanup rows are fresh when they are drawn. */
  ghost predicate DrawnOnce(steps: seq<Action>, used: set<Uuid>)
    decreases |steps|
  {
    steps != [] ==>
      if Draws(steps[0]) then steps[0].cleanupId !in used && DrawnOnce(steps[1..], used + {steps[0].cleanupId})
      else DrawnOnce(steps[1..], used)
  }

  ghost predicate Retains(steps: seq<Action>, lifetime: int) {
    forall i :: 0 <= i < |steps| && steps[i].PurgeViews? ==> lifetime <= steps[i].retention
  }

  /** The steps of everyone but the passes. */
  function Others(steps: seq<Action>): seq<Action> {
    if steps == [] then [] else (if IsSweep(steps[0]) then [] else [steps[0]]) + Others(steps[1..])
  }

  lemma JobStepMirrored(w: World, u: World, a: Action)
    requires Inv(w) && Mirrors(w, u) && Enabled(w, a) && (a.Publish? || a.FailMedia? || a.ClaimMedia? || a.PutVariant? || a.DropMedia?)
    requires Draws(a) ==> a.cleanupId !in u.db.cleanup
    ensures Enabled(u, a) && Mirrors(Apply(w, a), Apply(u, a))
  {
    InvDates(w);
    if a.Publish? || a.FailMedia? {
      assert RunBacked(w, w.media[a.run]);
    }
    hide Inv, Swept, Lifecycle, ViewsDated, T.PublishStory, T.FailMediaJob, T.ClaimMediaJob, MediaDue, UuidText, VariantKey, RunBacked;
    match a
    case Publish(run, cleanupId) =>
      var m := w.media[run];
      PublishMirrored(w.db, u.db, w.now, w.lifetime, m.job, m.story, m.puts, cleanupId);
    case FailMedia(run, retryable, cleanupId) =>
      var m := w.media[run];
      FailMirrored(w.db, u.db, w.now, w.lifetime, m.job, m.story, retryable, cleanupId);
    case ClaimMedia(run, job, owner, lease) =>
      ClaimMirrored(w.db, u.db, w.now, job, owner, lease);
    case _ =>
  }

  lemma TickMirrored(w: World, u: World, to: int)
    requires Mirrors(w, u) && Enabled(w, Tick(to))
    ensures Enabled(u, Tick(to)) && Mirrors(Apply(w, Tick(to)), Apply(u, Tick(to)))
  {
    SweptLater(w.db, u.db, w.now, to);
    hide Swept;
  }

  lemma IntentsMirrored(d: Db, e: Db, now: int)
    requires Swept(d, e, now)
    ensures d.jobs.Keys == e.jobs.Keys && d.stories.Keys == e.stories.Keys && d.intents.Keys == e.intents.Keys
    ensures forall i :: i in d.intents ==> d.intents[i].objectKey == e.intents[i].objectKey
  {
    forall i | i in d.intents
      ensures d.intents[i].objectKey == e.intents[i].objectKey
    {
      assert SameIntent(d.intents[i], e.intents[i], now);
    }
  }

  lemma IntentStepMirrored(w: World, u: World, a: Action)
    requires Mirrors(w, u) && Enabled(w, a) && (a.CreateIntent? || a.ClientPut?)
    ensures Enabled(u, a) && Mirrors(Apply(w, a), Apply(u, a))
  {
    IntentsMirrored(w.db, u.db, w.now);
    hide Swept, T.CreateUploadIntent, UploadKey;
    if a.CreateIntent? {
      CreateMirrored(w.db, u.db, w.now, a.id, a.user, a.key, w.now + a.ttl);
    }
  }

  lemma FinalizeStepMirrored(w: World, u: World, a: Action)
    requires Inv(w) && Inv(u) && Mirrors(w, u) && Enabled(w, a) && a.Finalize?
    ensures Enabled(u, a) && Mirrors(Apply(w, a), Apply(u, a))
  {
    InvDates(w);
    InvDates(u);
    IntentsMirrored(w.db, u.db, w.now);
    hide Inv, Swept, Lifecycle, ViewsDated, T.FinalizeUpload;
    FinalizeMirrored(w.db, u.db, w.now, a.user, a.upload, a.newJob, a.newStory, a.draft);
  }

  lemma LiveMirrored(d: Db, e: Db, now: int, s: Uuid)
    requires Swept(d, e, now)
    ensures s in d.stories && Live(d.stories[s], now) <==> s in e.stories && Live(e.stories[s], now)
    ensures s in d.stories && Live(d.stories[s], now) ==> d.stories[s] == e.stories[s]
  {
    assert d.stories.Keys == e.stories.Keys;
    if s in d.stories {
      assert SameStory(d.stories[s], e.stories[s], now);
    }
  }

  lemma StoryStepMirrored(w: World, u: World, a: Action)
    requires Inv(w) && Mirrors(w, u) && Enabled(w, a) && (a.Delete? || a.Update?)
    requires Draws(a) ==> a.cleanupId !in u.db.cleanup
    ensures Enabled(u, a) && Mirrors(Apply(w, a), Apply(u, a))
  {
    InvDates(w);
    hide Inv, Swept, Lifecycle, ViewsDated, T.DeleteStory, T.UpdateStory;
    if a.Delete? {
      DeleteMirrored(w.db, u.db, w.now, w.lifetime, a.actor, a.story, a.moderator, a.cleanupId);
    } else {
      UpdateMirrored(w.db, u.db, w.now, a.actor, a.story, a.edit);
    }
  }

  lemma ReaderStepMirrored(w: World, u: World, a: Action)
    requires Mirrors(w, u) && Enabled(w, a) && (a.Resolve? || a.RecordView? || a.AcknowledgeView?)
    ensures Enabled(u, a) && Mirrors(Apply(w, a), Apply(u, a))
  {
    LiveMirrored(w.db, u.db, w.now, a.story);
    ViewMirrored(w.db, u.db, w.now, a.story, a.viewer);
    hide Swept, Live, T.RecordView, T.AcknowledgeView;
  }

  /** Whatever anyone else can do with the passes' changes in place they can do without them, to the same effect. */
  lemma OtherMirrored(w: World, u: World, a: Action)
    requires Inv(w) && Inv(u) && Mirrors(w, u) && Enabled(w, a) && !IsSweep(a)
    requires Draws(a) ==> a.cleanupId !in u.db.cleanup
    ensures Enabled(u, a) && Mirrors(Apply(w, a), Apply(u, a))
  {
    hide Inv, Mirrors, Enabled, Apply;
    if a.Tick? {
      TickMirrored(w, u, a.to);
    } else if a.CreateIntent? || a.ClientPut? {
      IntentStepMirrored(w, u, a);
    } else if a.Finalize? {
      FinalizeStepMirrored(w, u, a);
    } else if a.Delete? || a.Update? {
      StoryStepMirrored(w, u, a);
    } else if a.Resolve? || a.RecordView? || a.AcknowledgeView? {
      ReaderStepMirrored(w, u, a);
    } else {
      JobStepMirrored(w, u, a);
    }
  }

  lemma RowsDrawn(u: World, a: Action, used: set<Uuid>)
    requires Enabled(u, a) && !IsSweep(a) && u.db.cleanup.Keys <= used
    ensures Apply(u, a).db.cleanup.Keys <= if Draws(a) then used + {a.cleanupId} else used
  {
    hide T.UpsertVariants, Backoff;
    if a.Delete? {
    } else if a.Publish? {
    } else if a.FailMedia? {
    }
  }

  lemma PathStep(u: World, a: Action, rest: seq<Action>, u': World)
    requires Enabled(u, a) && Path(Apply(u, a), rest, u')
    ensures Path(u, [a] + rest, u')
  {
    assert ([a] + rest)[1..] == rest;
    hide Enabled, Apply;
  }

  lemma {:induction false} PathMirrored(w: World, u: World, steps: seq<Action>, w': World, used: set<Uuid>) returns (u': World)
    requires Inv(w) && Inv(u) && Mirrors(w, u) && Path(w, steps, w')
    requires Retains(steps, w.lifetime) && DrawnOnce(steps, used) && u.db.cleanup.Keys <= used
    ensures Path(u, Others(steps), u') && Mirrors(w', u')
    decreases |steps|
  {
    hide Inv, Evolves, Mirrors;
    if steps == [] {
      u' := u;
    } else {
      var a := steps[0];
      var next := Apply(w, a);
      StepKept(w, a);
      assert Retains(steps[1..], next.lifetime);
      if IsSweep(a) {
        SweepMirrors(w, u, a);
        assert Others(steps) == Others(steps[1..]);
        u' := PathMirrored(next, u, steps[1..], w', used);
      } else {
        OtherMirrored(w, u, a);
        StepKept(u, a);
        RowsDrawn(u, a, used);
        hide Enabled, Draws, Retains;
        u' := PathMirrored(next, Apply(u, a), steps[1..], w', if Draws(a) then used + {a.cleanupId} else used);
        PathStep(u, a, Others(steps[1..]), u');
      }
    }
  }

  /** Mirrored tables read alike from now on. */
  lemma MirrorsRead(w: World, u: World)
    requires Mirrors(w, u)
    ensures CR.SameForAll(w.db, u.db, w.now)
  {
  }

  /**
   * If view rows are kept at least as long as stories live, the steps of cleanup passes can be taken out of any run,
   * however they interleave with uploads, workers, deletions and readers: the rest is a run from the same state, and
   * from its end on every caller sees the same items with the same seen flags.
   */
  lemma PassesLeaveNoTrace(w: World, steps: seq<Action>, w': World) returns (u': World)
    requires Reachable(w) && Path(w, steps, w')
    requires Retains(steps, w.lifetime) && DrawnOnce(steps, w.db.cleanup.Keys)
    ensures Path(w, Others(steps), u') && u'.now == w'.now
    ensures CR.SameForAll(w'.db, u'.db, w'.now)
  {
    PT.ReachableInv(w);
    MirrorsItself(w);
    u' := PathMirrored(w, w, steps, w', w.db.cleanup.Keys);
    MirrorsRead(w', u');
  }
}
