/** Every transaction keeps the table invariant and moves rows only along the allowed edges. */
module PipelineSteps {
  import opened Options
  import opened ObjectKeys
  import opened Tables
  import opened PipelineInvariant
  import T = Transactions

  lemma TickKeeps(db: Db, now: int, lifetime: int, to: int)
    requires DbInv(db, now, lifetime) && now <= to
    ensures DbInv(db, to, lifetime)
  {
  }

  /** Nothing but lease columns, the audience and the set of view rows differs. */
  ghost predicate Quiet(db: Db, db': Db) {
    && Evolves(db, db')
    && db'.intents == db.intents && db'.variants == db.variants
    && db'.jobs.Keys == db.jobs.Keys && db'.stories.Keys == db.stories.Keys && db'.cleanup.Keys == db.cleanup.Keys
    && (forall s :: s in db.stories ==> db'.stories[s].(audience := db.stories[s].audience) == db.stories[s])
  }

  lemma QuietKeeps(db: Db, db': Db, now: int, lifetime: int)
    requires DbInv(db, now, lifetime) && Quiet(db, db') && ViewsDated(db')
    ensures DbInv(db', now, lifetime)
  {
    assert Linked(db') by { LinkedFrame(db, db'); }
    assert VariantsOwned(db') by { VariantsFrame(db, db'); }
    assert PayloadsSafe(db') by { PayloadsFrame(db, db'); }
    QuietAccounted(db, db');
    assert Lifecycle(db', now, lifetime) by { QuietDated(db, db', now, lifetime); }
  }

  lemma QuietDated(db: Db, db': Db, now: int, lifetime: int)
    requires Lifecycle(db, now, lifetime) && Quiet(db, db')
    ensures Lifecycle(db', now, lifetime)
  {
    forall s | s in db'.stories ensures Dated(db'.stories[s], now, lifetime) {
      assert Dated(db.stories[s], now, lifetime);
    }
  }

  lemma QuietAccounted(db: Db, db': Db)
    requires NothingLost(db) && Quiet(db, db')
    ensures NothingLost(db')
  {
    IntentsStillAccounted(db, db');
    forall s | s in db'.stories ensures StoryAccounted(db', s) {
      assert StoryAccounted(db, s);
      StillAccounted(db, db', s);
    }
  }

  lemma ClaimMediaQuiet(db: Db, id: Uuid, owner: string, now: int, lease: int)
    requires id in db.jobs
    ensures Quiet(db, T.ClaimMediaJob(db, id, owner, now, lease))
  {
  }

  lemma UpdateQuiet(db: Db, owner: Uuid, story: Uuid, edit: Edit)
    requires T.UpdateStory(db, owner, story, edit).Some?
    ensures Quiet(db, T.UpdateStory(db, owner, story, edit).value)
  {
  }

  lemma ReapQuiet(db: Db, now: int)
    ensures Quiet(db, T.ReapExpiredLeases(db, now))
  {
  }

  /** Claiming, completing and failing a cleanup job only move its state, attempts and run time. */
  lemma CleanupRowQuiet(db: Db, id: Uuid, row: CleanupJob)
    requires id in db.cleanup && row.keys == db.cleanup[id].keys
    ensures Quiet(db, db.(cleanup := db.cleanup[id := row]))
  {
  }

  lemma ViewsQuiet(db: Db, views: map<(Uuid, Uuid), View>)
    ensures Quiet(db, db.(views := views))
  {
  }

  lemma ViewDateKept(db: Db, db': Db)
    requires StoriesEvolve(db, db') && ViewsDated(db)
    requires forall v :: v in db'.views ==>
               (v in db.views && db'.views[v].deliveredAt == db.views[v].deliveredAt) || ViewDated(db, v, db'.views[v].deliveredAt)
    ensures ViewsDated(db')
  {
    forall v | v in db'.views ensures ViewDated(db', v, db'.views[v].deliveredAt) {
      assert ViewDated(db, v, db'.views[v].deliveredAt);
    }
  }

  // -------------------------------------------------- uploads and finalization

  /** The invariant from its parts, when rows were added but nothing was published, failed or scheduled. */
  lemma KeepAdded(db: Db, db': Db, now: int, lifetime: int)
    requires DbInv(db, now, lifetime) && Evolves(db, db') && Linked(db')
    requires db'.variants == db.variants && db'.cleanup == db.cleanup && db'.views == db.views
    requires forall s :: s in db'.stories ==>
               (s in db.stories && db'.stories[s] == db.stories[s])
               || (db'.stories[s].state.Processing? && db'.stories[s].publishedAt.None? && db'.stories[s].expiresAt.None?)
    requires forall i :: i in db'.intents && db'.intents[i].state.Expired? ==> i in db.intents && db.intents[i].state.Expired?
    ensures DbInv(db', now, lifetime)
  {
    assert VariantsOwned(db') by { VariantsFrame(db, db'); }
    assert PayloadsSafe(db') by { PayloadsFrame(db, db'); }
    assert ViewsDated(db') by { ViewDateKept(db, db'); }
    assert NothingLost(db') by {
      IntentsStillAccounted(db, db');
      forall s | s in db'.stories ensures StoryAccounted(db', s) {
        if s in db.stories && db'.stories[s] == db.stories[s] {
          assert StoryAccounted(db, s);
          StillAccounted(db, db', s);
        }
      }
    }
  }

  lemma CreateLinked(db: Db, id: Uuid, user: Uuid, key: string, expiresAt: int)
    requires Linked(db) && id !in db.intents && UploadKey(key)
    ensures Linked(T.CreateUploadIntent(db, id, user, key, expiresAt))
  {
    var db' := T.CreateUploadIntent(db, id, user, key, expiresAt);
    forall j, i ensures QueuedFor(db', j, i) == QueuedFor(db, j, i) {}
    forall j | j in db'.jobs ensures JobLinked(db', j) { assert JobLinked(db, j); }
    forall s | s in db'.stories ensures StoryLinked(db', s) { assert StoryLinked(db, s); }
    forall i | i in db'.intents ensures IntentLinked(db', i) {
      if i in db.intents {
        IntentLinkKept(db, db', i);
      }
    }
  }

  lemma IntentLinkKept(db: Db, db': Db, i: Uuid)
    requires i in db.intents && i in db'.intents && IntentLinked(db, i)
    requires db'.intents[i].objectKey == db.intents[i].objectKey
    requires db'.intents[i].state.Finalized? ==> db.intents[i].state.Finalized?
    requires forall j :: QueuedFor(db, j, i) ==> QueuedFor(db', j, i)
    ensures IntentLinked(db', i)
  {
    if db'.intents[i].state.Finalized? {
      var j :| QueuedFor(db, j, i);
      assert QueuedFor(db', j, i);
    }
  }

  lemma FinalizeQueues(db: Db, now: int, user: Uuid, upload: Uuid, job: Uuid, story: Uuid, draft: Draft)
    requires Linked(db)
    requires T.FinalizeCheck(db, now, user, upload).Fresh? && job !in db.jobs
    ensures forall j :: !QueuedFor(db, j, upload)
    ensures forall j, i :: QueuedFor(T.FinalizeUpload(db, now, user, upload, job, story, draft), j, i)
              <==> QueuedFor(db, j, i) || (j == job && i == upload)
  {
  }

  lemma FinalizeLinked(db: Db, now: int, user: Uuid, upload: Uuid, job: Uuid, story: Uuid, draft: Draft)
    requires Linked(db)
    requires T.FinalizeCheck(db, now, user, upload).Fresh? && job !in db.jobs && story !in db.stories
    ensures Linked(T.FinalizeUpload(db, now, user, upload, job, story, draft))
  {
    var db' := T.FinalizeUpload(db, now, user, upload, job, story, draft);
    FinalizeQueues(db, now, user, upload, job, story, draft);
    forall j | j in db'.jobs ensures JobLinked(db', j) {
      if j != job { assert JobLinked(db, j); }
    }
    forall s | s in db'.stories ensures StoryLinked(db', s) {
      if s != story { assert StoryLinked(db, s); }
    }
    forall i | i in db'.intents ensures IntentLinked(db', i) {
      if i == upload {
        assert QueuedFor(db', job, i);
        assert IntentLinked(db, i);
      } else {
        IntentLinkKept(db, db', i);
      }
    }
  }

  lemma AddEvolves(db: Db, now: int, user: Uuid, upload: Uuid, job: Uuid, story: Uuid, draft: Draft)
    requires upload in db.intents && job !in db.jobs && story !in db.stories
    ensures Evolves(db, T.FinalizeUpload(db, now, user, upload, job, story, draft))
  {
  }

  lemma CreateKeeps(db: Db, now: int, lifetime: int, id: Uuid, user: Uuid, key: string, expiresAt: int)
    requires DbInv(db, now, lifetime) && id !in db.intents && UploadKey(key)
    ensures DbInv(T.CreateUploadIntent(db, id, user, key, expiresAt), now, lifetime)
    ensures Evolves(db, T.CreateUploadIntent(db, id, user, key, expiresAt))
  {
    CreateLinked(db, id, user, key, expiresAt);
    KeepAdded(db, T.CreateUploadIntent(db, id, user, key, expiresAt), now, lifetime);
  }

  lemma FinalizeKeeps(db: Db, now: int, lifetime: int, user: Uuid, upload: Uuid, job: Uuid, story: Uuid, draft: Draft)
    requires DbInv(db, now, lifetime)
    requires T.FinalizeCheck(db, now, user, upload).Fresh? && job !in db.jobs && story !in db.stories
    ensures DbInv(T.FinalizeUpload(db, now, user, upload, job, story, draft), now, lifetime)
    ensures Evolves(db, T.FinalizeUpload(db, now, user, upload, job, story, draft))
  {
    FinalizeLinked(db, now, user, upload, job, story, draft);
    AddEvolves(db, now, user, upload, job, story, draft);
    KeepAdded(db, T.FinalizeUpload(db, now, user, upload, job, story, draft), now, lifetime);
  }

  // ------------------------------------- transactions that schedule deletions

  /** Stories may advance and payload rows may be added; links, variants and views stay. */
  ghost predicate Advances(db: Db, db': Db) {
    && Evolves(db, db')
    && db'.variants == db.variants && db'.views == db.views
    && db'.intents.Keys == db.intents.Keys && db'.jobs.Keys == db.jobs.Keys && db'.stories.Keys == db.stories.Keys
    && (forall i :: i in db.intents ==>
         db'.intents[i] == db.intents[i] || (db.intents[i].state.Issued? && db'.intents[i].state.Expired?))
    && (forall s :: s in db.stories ==>
         db'.stories[s].publishedAt == db.stories[s].publishedAt && db'.stories[s].expiresAt == db.stories[s].expiresAt
         && (db'.stories[s].state.Processing? || db'.stories[s].state.Failed? ==> !db.stories[s].state.Published? && !db.stories[s].state.Gone())
         && (db'.stories[s].state.Published? ==> db.stories[s].state.Published?))
  }

  lemma AdvanceLinked(db: Db, db': Db)
    requires Linked(db) && Advances(db, db')
    ensures Linked(db')
  {
    forall j, i ensures QueuedFor(db', j, i) == QueuedFor(db, j, i) {}
    forall j | j in db'.jobs ensures JobLinked(db', j) { assert JobLinked(db, j); }
    forall s | s in db'.stories ensures StoryLinked(db', s) { assert StoryLinked(db, s); }
    forall i | i in db'.intents ensures IntentLinked(db', i) { IntentLinkKept(db, db', i); }
  }

  lemma AdvanceDated(db: Db, db': Db, now: int, lifetime: int)
    requires Lifecycle(db, now, lifetime) && Advances(db, db')
    ensures Lifecycle(db', now, lifetime)
  {
    forall s | s in db'.stories ensures Dated(db'.stories[s], now, lifetime) {
      assert Dated(db.stories[s], now, lifetime);
    }
  }

  lemma AdvanceAccounted(db: Db, db': Db)
    requires NothingLost(db) && Advances(db, db')
    requires forall i :: i in db.intents && db'.intents[i] != db.intents[i] ==> IntentAccounted(db', i)
    requires forall s :: s in db.stories && db'.stories[s] != db.stories[s] ==> StoryAccounted(db', s)
    ensures NothingLost(db')
  {
    forall i | i in db'.intents ensures IntentAccounted(db', i) {
      if db'.intents[i] == db.intents[i] && db.intents[i].state.Expired? {
        assert IntentAccounted(db, i);
        ScheduledGrows(db, db', {db.intents[i].objectKey});
      }
    }
    forall s | s in db'.stories ensures StoryAccounted(db', s) {
      if db'.stories[s] == db.stories[s] {
        assert StoryAccounted(db, s);
        StillAccounted(db, db', s);
      }
    }
  }

  lemma AdvanceKeeps(db: Db, db': Db, now: int, lifetime: int)
    requires DbInv(db, now, lifetime) && Advances(db, db')
    requires forall c :: c in db'.cleanup && c !in db.cleanup ==> PayloadSafe(db', db'.cleanup[c].keys)
    requires forall i :: i in db.intents && db'.intents[i] != db.intents[i] ==> IntentAccounted(db', i)
    requires forall s :: s in db.stories && db'.stories[s] != db.stories[s] ==> StoryAccounted(db', s)
    ensures DbInv(db', now, lifetime)
  {
    AdvanceLinked(db, db');
    AdvanceDated(db, db', now, lifetime);
    AdvanceAccounted(db, db');
    assert VariantsOwned(db') by { VariantsFrame(db, db'); }
    assert PayloadsSafe(db') by { PayloadsFrame(db, db'); }
    assert ViewsDated(db') by { ViewDateKept(db, db'); }
  }

  /** Retiring a published story leaves it accounted for once its variants are scheduled. */
  lemma RetiredAccounted(db: Db, db': Db, s: Uuid)
    requires Advances(db, db') && s in db.stories && StoryAccounted(db, s)
    requires db'.stories[s].state.Gone()
    requires db.stories[s].publishedAt.Some? ==> Scheduled(db', VariantKeys(db'.variants, s))
    ensures StoryAccounted(db', s)
  {
    if db.stories[s].publishedAt.Some? {
      OriginalGrows(db, db', db.stories[s].job);
    }
  }

  lemma DeleteAdvances(db: Db, now: int, actor: Uuid, story: Uuid, moderator: bool, cleanupId: Uuid)
    requires cleanupId !in db.cleanup && T.DeleteStory(db, now, actor, story, moderator, cleanupId).Some?
    ensures Advances(db, T.DeleteStory(db, now, actor, story, moderator, cleanupId).value)
  {
  }

  lemma DeleteKeeps(db: Db, now: int, lifetime: int, actor: Uuid, story: Uuid, moderator: bool, cleanupId: Uuid)
    requires DbInv(db, now, lifetime) && cleanupId !in db.cleanup
    requires T.DeleteStory(db, now, actor, story, moderator, cleanupId).Some?
    ensures DbInv(T.DeleteStory(db, now, actor, story, moderator, cleanupId).value, now, lifetime)
    ensures Evolves(db, T.DeleteStory(db, now, actor, story, moderator, cleanupId).value)
  {
    var db' := T.DeleteStory(db, now, actor, story, moderator, cleanupId).value;
    DeleteAdvances(db, now, actor, story, moderator, cleanupId);
    assert PayloadSafe(db', VariantKeys(db.variants, story)) by {
      VariantsFrame(db, db');
      VariantPayloadSafe(db', story);
    }
    assert StoryAccounted(db', story) by {
      NewRowSchedules(db', cleanupId, VariantKeys(db.variants, story));
      RetiredAccounted(db, db', story);
    }
    AdvanceKeeps(db, db', now, lifetime);
  }

  lemma ExpireEvolves(db: Db, now: int, batch: map<Uuid, Uuid>)
    requires batch.Keys !! db.cleanup.Keys
    requires forall c :: c in batch ==> batch[c] in db.stories && StoryDue(db.stories[batch[c]], now)
    ensures Evolves(db, T.ExpireStories(db, now, batch))
  {
  }

  lemma ExpireAdvances(db: Db, now: int, batch: map<Uuid, Uuid>)
    requires batch.Keys !! db.cleanup.Keys
    requires forall c :: c in batch ==> batch[c] in db.stories && StoryDue(db.stories[batch[c]], now)
    ensures Advances(db, T.ExpireStories(db, now, batch))
  {
    hide Evolves;
    ExpireEvolves(db, now, batch);
  }

  lemma ExpirePayloads(db: Db, now: int, batch: map<Uuid, Uuid>, c: Uuid)
    requires VariantsOwned(T.ExpireStories(db, now, batch)) && c in batch && batch[c] in db.stories
    ensures PayloadSafe(T.ExpireStories(db, now, batch), T.ExpireStories(db, now, batch).cleanup[c].keys)
  {
    var db' := T.ExpireStories(db, now, batch);
    assert batch[c] in batch.Values;
    VariantPayloadSafe(db', batch[c]);
    UploadPayloadSafe(db', {""});
  }

  lemma ExpireSchedules(db: Db, now: int, batch: map<Uuid, Uuid>, c: Uuid)
    requires c in batch
    ensures Scheduled(T.ExpireStories(db, now, batch), VariantKeys(db.variants, batch[c]))
  {
    NewRowSchedules(T.ExpireStories(db, now, batch), c, VariantKeys(db.variants, batch[c]));
  }

  lemma ExpireKeeps(db: Db, now: int, lifetime: int, batch: map<Uuid, Uuid>)
    requires DbInv(db, now, lifetime) && batch.Keys !! db.cleanup.Keys
    requires forall c :: c in batch ==> batch[c] in db.stories && StoryDue(db.stories[batch[c]], now)
    ensures DbInv(T.ExpireStories(db, now, batch), now, lifetime)
    ensures Evolves(db, T.ExpireStories(db, now, batch))
  {
    var db' := T.ExpireStories(db, now, batch);
    ExpireAdvances(db, now, batch);
    VariantsFrame(db, db');
    forall c | c in db'.cleanup && c !in db.cleanup ensures PayloadSafe(db', db'.cleanup[c].keys) {
      ExpirePayloads(db, now, batch, c);
    }
    forall s | s in db.stories && db'.stories[s] != db.stories[s] ensures StoryAccounted(db', s) {
      var c :| c in batch && batch[c] == s;
      ExpireSchedules(db, now, batch, c);
      RetiredAccounted(db, db', s);
    }
    AdvanceKeeps(db, db', now, lifetime);
  }

  lemma CollectAdvances(db: Db, now: int, due: set<Uuid>, cleanupId: Uuid)
    requires due != {} && cleanupId !in db.cleanup
    requires forall i :: i in due ==> i in db.intents && IntentDue(db.intents[i], now)
    ensures Advances(db, T.GCAbandonedUploads(db, now, due, cleanupId))
    ensures forall i :: i in due ==> Scheduled(T.GCAbandonedUploads(db, now, due, cleanupId), {db.intents[i].objectKey})
  {
    var db' := T.GCAbandonedUploads(db, now, due, cleanupId);
    forall i | i in due ensures Scheduled(db', {db.intents[i].objectKey}) {
      NewRowSchedules(db', cleanupId, {db.intents[i].objectKey});
    }
  }

  lemma CollectPayload(db: Db, now: int, due: set<Uuid>, cleanupId: Uuid)
    requires due != {} && Linked(db)
    requires forall i :: i in due ==> i in db.intents
    ensures PayloadSafe(T.GCAbandonedUploads(db, now, due, cleanupId),
                        T.GCAbandonedUploads(db, now, due, cleanupId).cleanup[cleanupId].keys)
  {
    var db' := T.GCAbandonedUploads(db, now, due, cleanupId);
    var keys := db'.cleanup[cleanupId].keys;
    forall key | key in keys ensures UploadKey(key) {
      var i :| i in due && i in db.intents && db.intents[i].objectKey == key;
      assert IntentLinked(db, i);
    }
    UploadPayloadSafe(db', keys);
  }

  lemma CollectKeeps(db: Db, now: int, lifetime: int, due: set<Uuid>, cleanupId: Uuid)
    requires DbInv(db, now, lifetime) && cleanupId !in db.cleanup
    requires forall i :: i in due ==> i in db.intents && IntentDue(db.intents[i], now)
    ensures DbInv(T.GCAbandonedUploads(db, now, due, cleanupId), now, lifetime)
    ensures Evolves(db, T.GCAbandonedUploads(db, now, due, cleanupId))
  {
    if due != {} {
      var db' := T.GCAbandonedUploads(db, now, due, cleanupId);
      CollectAdvances(db, now, due, cleanupId);
      CollectPayload(db, now, due, cleanupId);
      AdvanceKeeps(db, db', now, lifetime);
    }
  }

  /** The out-of-budget branch, with its join resolved. */
  function GiveUp(db: Db, now: int, job: Uuid, key: string, cleanupId: Uuid): Db
    requires job in db.jobs
  {
    var story := db.jobs[job].inputStory;
    db.(jobs := db.jobs[job := db.jobs[job].(state := JobState.Failed)],
        stories := if story in db.stories && db.stories[story].state.Processing?
                   then db.stories[story := db.stories[story].(state := StoryState.Failed)] else db.stories,
        cleanup := db.cleanup[cleanupId := NewCleanup({key}, now)])
  }

  lemma GiveUpIsFail(db: Db, now: int, job: Uuid, retryable: bool, key: string, cleanupId: Uuid)
    requires job in db.jobs && OriginalOf(db, job) == Some(key)
    requires !(retryable && db.jobs[job].attempts < db.jobs[job].maxAttempts)
    ensures T.FailMediaJob(db, now, job, db.jobs[job].inputStory, retryable, cleanupId)
         == Some(GiveUp(db, now, job, key, cleanupId))
  {
  }

  lemma GiveUpAdvances(db: Db, now: int, job: Uuid, key: string, cleanupId: Uuid)
    requires job in db.jobs && cleanupId !in db.cleanup
    ensures Advances(db, GiveUp(db, now, job, key, cleanupId))
    ensures OriginalOf(GiveUp(db, now, job, key, cleanupId), job) == OriginalOf(db, job)
  {
  }

  lemma GiveUpAccounts(db: Db, now: int, lifetime: int, job: Uuid, key: string, cleanupId: Uuid)
    requires job in db.jobs && cleanupId !in db.cleanup && OriginalOf(db, job) == Some(key)
    requires db.jobs[job].inputStory in db.stories && db.stories[db.jobs[job].inputStory].job == job
    requires Dated(db.stories[db.jobs[job].inputStory], now, lifetime)
    ensures var db' := GiveUp(db, now, job, key, cleanupId);
      forall s :: s in db.stories && db'.stories[s] != db.stories[s] ==> StoryAccounted(db', s)
  {
    var db' := GiveUp(db, now, job, key, cleanupId);
    NewRowSchedules(db', cleanupId, {key});
    assert OriginalScheduled(db', job);
  }

  lemma GiveUpKeeps(db: Db, now: int, lifetime: int, job: Uuid, key: string, cleanupId: Uuid)
    requires DbInv(db, now, lifetime) && job in db.jobs && cleanupId !in db.cleanup
    requires OriginalOf(db, job) == Some(key) && UploadKey(key)
    ensures DbInv(GiveUp(db, now, job, key, cleanupId), now, lifetime)
  {
    var db' := GiveUp(db, now, job, key, cleanupId);
    JobFacts(db, now, lifetime, job);
    GiveUpAdvances(db, now, job, key, cleanupId);
    GiveUpAccounts(db, now, lifetime, job, key, cleanupId);
    GiveUpPayloads(db, now, job, key, cleanupId);
    AdvanceKeeps(db, db', now, lifetime);
  }

  lemma GiveUpPayloads(db: Db, now: int, job: Uuid, key: string, cleanupId: Uuid)
    requires job in db.jobs && UploadKey(key)
    ensures var db' := GiveUp(db, now, job, key, cleanupId);
      forall c :: c in db'.cleanup && c !in db.cleanup ==> PayloadSafe(db', db'.cleanup[c].keys)
  {
    UploadPayloadSafe(GiveUp(db, now, job, key, cleanupId), {key});
  }

  lemma JobFacts(db: Db, now: int, lifetime: int, job: Uuid)
    requires Linked(db) && Lifecycle(db, now, lifetime) && job in db.jobs
    ensures db.jobs[job].inputStory in db.stories && db.stories[db.jobs[job].inputStory].job == job
    ensures Dated(db.stories[db.jobs[job].inputStory], now, lifetime)
  {
    assert JobLinked(db, job);
  }

  function Retry(db: Db, now: int, job: Uuid): Db
    requires job in db.jobs
  {
    var j := db.jobs[job];
    db.(jobs := db.jobs[job := j.(state := JobState.Queued, runAfter := now + Backoff(j.attempts, MEDIA_BACKOFF))])
  }

  lemma RetryKeeps(db: Db, now: int, lifetime: int, job: Uuid)
    requires DbInv(db, now, lifetime) && job in db.jobs
    ensures DbInv(Retry(db, now, job), now, lifetime)
    ensures Evolves(db, Retry(db, now, job))
  {
    RetryQuiet(db, now, job);
    ViewDateKept(db, Retry(db, now, job));
    QuietKeeps(db, Retry(db, now, job), now, lifetime);
  }

  lemma RetryQuiet(db: Db, now: int, job: Uuid)
    requires job in db.jobs
    ensures Quiet(db, Retry(db, now, job))
  {
  }

  lemma FailMediaKeeps(db: Db, now: int, lifetime: int, job: Uuid, retryable: bool, cleanupId: Uuid)
    requires DbInv(db, now, lifetime) && cleanupId !in db.cleanup && job in db.jobs
    ensures T.FailMediaJob(db, now, job, db.jobs[job].inputStory, retryable, cleanupId).Some?
    ensures DbInv(T.FailMediaJob(db, now, job, db.jobs[job].inputStory, retryable, cleanupId).value, now, lifetime)
    ensures Evolves(db, T.FailMediaJob(db, now, job, db.jobs[job].inputStory, retryable, cleanupId).value)
  {
    if retryable && db.jobs[job].attempts < db.jobs[job].maxAttempts {
      assert T.FailMediaJob(db, now, job, db.jobs[job].inputStory, retryable, cleanupId) == Some(Retry(db, now, job));
      RetryKeeps(db, now, lifetime, job);
    } else {
      JobFindsUpload(db, job);
      var key := OriginalOf(db, job).value;
      GiveUpIsFail(db, now, job, retryable, key, cleanupId);
      GiveUpAdvances(db, now, job, key, cleanupId);
      GiveUpKeeps(db, now, lifetime, job, key, cleanupId);
    }
  }

  lemma JobFindsUpload(db: Db, job: Uuid)
    requires Linked(db) && job in db.jobs
    ensures OriginalOf(db, job).Some? && UploadKey(OriginalOf(db, job).value)
  {
    assert JobLinked(db, job);
    assert IntentLinked(db, db.jobs[job].intent);
  }

  // --------------------------------------------------------------- publication

  lemma {:induction false} UpsertFacts(m: map<(Uuid, VariantKind), string>, story: Uuid, vs: seq<Variant>)
    ensures var m' := T.UpsertVariants(m, story, vs);
      && (forall v :: v in m && v.0 != story ==> v in m' && m'[v] == m[v])
      && (forall v :: v in m' ==> (v in m && m'[v] == m[v]) || (v.0 == story && Variant(v.1, m'[v]) in vs))
      && (forall v :: v in m ==> v in m')
      && (forall v :: v in vs ==> (story, v.kind) in m')
  {
    if vs != [] {
      var init := vs[..|vs| - 1];
      UpsertFacts(m, story, init);
      assert vs == init + [vs[|vs| - 1]];
    }
  }

  lemma OthersKeepVariants(m: map<(Uuid, VariantKind), string>, story: Uuid, vs: seq<Variant>, s: Uuid)
    requires s != story
    ensures VariantKeys(T.UpsertVariants(m, story, vs), s) == VariantKeys(m, s)
  {
    UpsertFacts(m, story, vs);
    var m' := T.UpsertVariants(m, story, vs);
    forall kind: VariantKind ensures (s, kind) in m' <==> (s, kind) in m {}
  }

  /** The published tables, with the join resolved. */
  function Publication(db: Db, now: int, story: Uuid, vs: seq<Variant>, lifetime: int, key: string, cleanupId: Uuid): Db
    requires story in db.stories && db.stories[story].job in db.jobs
  {
    var s := db.stories[story];
    db.(variants := T.UpsertVariants(db.variants, story, vs),
        stories := db.stories[story :=
          s.(state := Published, publishedAt := Some(now), expiresAt := Some(now + lifetime))],
        jobs := db.jobs[s.job := db.jobs[s.job].(state := Succeeded)],
        cleanup := db.cleanup[cleanupId := NewCleanup({key}, now)])
  }

  lemma PublicationIsPublish(db: Db, now: int, job: Uuid, story: Uuid, vs: seq<Variant>, lifetime: int,
                             key: string, cleanupId: Uuid)
    requires story in db.stories && db.stories[story].state.Processing? && db.stories[story].job == job && job in db.jobs
    requires OriginalOf(db, job) == Some(key)
    ensures T.PublishStory(db, now, job, story, vs, lifetime, cleanupId)
         == Some(Publication(db, now, story, vs, lifetime, key, cleanupId))
  {
  }

  lemma PublicationEvolves(db: Db, now: int, story: Uuid, vs: seq<Variant>, lifetime: int, key: string, cleanupId: Uuid)
    requires story in db.stories && db.stories[story].job in db.jobs && cleanupId !in db.cleanup
    requires db.stories[story].state.Processing? && db.stories[story].publishedAt.None?
    ensures Evolves(db, Publication(db, now, story, vs, lifetime, key, cleanupId))
  {
  }

  lemma PublicationLinked(db: Db, now: int, story: Uuid, vs: seq<Variant>, lifetime: int, key: string, cleanupId: Uuid)
    requires Linked(db) && story in db.stories && db.stories[story].job in db.jobs
    requires Fixed(db, Publication(db, now, story, vs, lifetime, key, cleanupId))
    ensures Linked(Publication(db, now, story, vs, lifetime, key, cleanupId))
  {
    LinkedFrame(db, Publication(db, now, story, vs, lifetime, key, cleanupId));
  }

  lemma PublicationOwned(db: Db, now: int, story: Uuid, vs: seq<Variant>, lifetime: int, key: string, cleanupId: Uuid)
    requires VariantsOwned(db) && story in db.stories && db.stories[story].job in db.jobs
    requires forall v :: v in vs ==> StoryKey(story, v.key)
    ensures VariantsOwned(Publication(db, now, story, vs, lifetime, key, cleanupId))
  {
    UpsertFacts(db.variants, story, vs);
  }

  lemma PublicationAccounted(db: Db, now: int, story: Uuid, vs: seq<Variant>, lifetime: int, key: string, cleanupId: Uuid)
    requires NothingLost(db) && story in db.stories && db.stories[story].job in db.jobs && cleanupId !in db.cleanup
    requires OriginalOf(db, db.stories[story].job) == Some(key)
    requires Fixed(db, Publication(db, now, story, vs, lifetime, key, cleanupId))
    ensures NothingLost(Publication(db, now, story, vs, lifetime, key, cleanupId))
  {
    var db' := Publication(db, now, story, vs, lifetime, key, cleanupId);
    IntentsStillAccounted(db, db');
    forall s | s in db'.stories ensures StoryAccounted(db', s) {
      if s == story {
        NewRowSchedules(db', cleanupId, {key});
      } else {
        assert StoryAccounted(db, s);
        OthersKeepVariants(db.variants, story, vs, s);
        StillAccounted(db, db', s);
      }
    }
  }

  lemma PublishKeeps(db: Db, now: int, lifetime: int, job: Uuid, story: Uuid, vs: seq<Variant>, cleanupId: Uuid)
    requires DbInv(db, now, lifetime) && cleanupId !in db.cleanup
    requires job in db.jobs && db.jobs[job].inputStory == story
    requires forall v :: v in vs ==> StoryKey(story, v.key)
    requires T.PublishStory(db, now, job, story, vs, lifetime, cleanupId).Some?
    ensures DbInv(T.PublishStory(db, now, job, story, vs, lifetime, cleanupId).value, now, lifetime)
    ensures Evolves(db, T.PublishStory(db, now, job, story, vs, lifetime, cleanupId).value)
    ensures T.PublishStory(db, now, job, story, vs, lifetime, cleanupId).value.variants
         == T.UpsertVariants(db.variants, story, vs)
  {
    JobFindsUpload(db, job);
    JobFacts(db, now, lifetime, job);
    var key := OriginalOf(db, job).value;
    PublicationIsPublish(db, now, job, story, vs, lifetime, key, cleanupId);
    PublicationEvolves(db, now, story, vs, lifetime, key, cleanupId);
    PublicationInv(db, now, lifetime, story, vs, key, cleanupId);
  }

  lemma PublicationInv(db: Db, now: int, lifetime: int, story: Uuid, vs: seq<Variant>, key: string, cleanupId: Uuid)
    requires DbInv(db, now, lifetime) && cleanupId !in db.cleanup
    requires story in db.stories && db.stories[story].job in db.jobs && db.stories[story].state.Processing?
    requires OriginalOf(db, db.stories[story].job) == Some(key) && UploadKey(key)
    requires forall v :: v in vs ==> StoryKey(story, v.key)
    requires Evolves(db, Publication(db, now, story, vs, lifetime, key, cleanupId))
    ensures DbInv(Publication(db, now, story, vs, lifetime, key, cleanupId), now, lifetime)
  {
    PublicationLinked(db, now, story, vs, lifetime, key, cleanupId);
    PublicationOwned(db, now, story, vs, lifetime, key, cleanupId);
    PublicationAccounted(db, now, story, vs, lifetime, key, cleanupId);
    PublicationPayloads(db, now, story, vs, lifetime, key, cleanupId);
    PublicationDated(db, now, story, vs, lifetime, key, cleanupId);
  }

  lemma PublicationPayloads(db: Db, now: int, story: Uuid, vs: seq<Variant>, lifetime: int, key: string, cleanupId: Uuid)
    requires PayloadsSafe(db) && story in db.stories && db.stories[story].job in db.jobs && UploadKey(key)
    requires StoriesEvolve(db, Publication(db, now, story, vs, lifetime, key, cleanupId))
    ensures PayloadsSafe(Publication(db, now, story, vs, lifetime, key, cleanupId))
  {
    var db' := Publication(db, now, story, vs, lifetime, key, cleanupId);
    UploadPayloadSafe(db', {key});
    PayloadsFrame(db, db');
  }

  lemma PublicationDated(db: Db, now: int, story: Uuid, vs: seq<Variant>, lifetime: int, key: string, cleanupId: Uuid)
    requires Lifecycle(db, now, lifetime) && ViewsDated(db) && story in db.stories && db.stories[story].job in db.jobs
    requires StoriesEvolve(db, Publication(db, now, story, vs, lifetime, key, cleanupId))
    ensures Lifecycle(Publication(db, now, story, vs, lifetime, key, cleanupId), now, lifetime)
    ensures ViewsDated(Publication(db, now, story, vs, lifetime, key, cleanupId))
  {
    ViewDateKept(db, Publication(db, now, story, vs, lifetime, key, cleanupId));
  }
}
