/** What holds in every reachable state of any number of interleaved, crashing workers. */
module PipelineSafety {
  import opened Options
  import opened ObjectKeys
  import opened Tables
  import opened PipelineInvariant
  import opened PipelineSteps
  import opened Protocol
  import T = Transactions

  /** A media handler carries keys of its own story only, and they stay stored until the story is gone. */
  ghost predicate RunBacked(w: World, run: MediaRun) {
    && run.job in w.db.jobs && w.db.jobs[run.job].inputStory == run.story
    && run.story in w.db.stories
    && (forall v :: v in run.puts ==>
         StoryKey(run.story, v.key) && (!w.db.stories[run.story].state.Gone() ==> v.key in w.objects))
  }

  ghost predicate CleanerBounded(w: World, run: CleanupRun) {
    run.job in w.db.cleanup && run.todo <= w.db.cleanup[run.job].keys
  }

  ghost predicate VariantStored(w: World, v: (Uuid, VariantKind))
    requires v in w.db.variants
  {
    v.0 in w.db.stories && !w.db.stories[v.0].state.Gone() ==> w.db.variants[v] in w.objects
  }

  ghost predicate Inv(w: World) {
    && DbInv(w.db, w.now, w.lifetime)
    && (forall r :: r in w.media ==> RunBacked(w, w.media[r]))
    && (forall r :: r in w.cleaners ==> CleanerBounded(w, w.cleaners[r]))
    && (forall v :: v in w.db.variants ==> VariantStored(w, v))
    && (forall r :: r in w.readers ==> ViewDated(w.db, r, w.now))
  }

  lemma InitialInv(w: World)
    requires Initial(w)
    ensures Inv(w)
  {
  }

  /** Only the tables moved, and no variant row was written. */
  lemma DbStep(w: World, db': Db)
    requires Inv(w) && DbInv(db', w.now, w.lifetime) && Evolves(w.db, db') && db'.variants == w.db.variants
    ensures Inv(w.(db := db'))
  {
    var w' := w.(db := db');
    forall r | r in w'.media ensures RunBacked(w', w'.media[r]) { assert RunBacked(w, w.media[r]); }
    forall r | r in w'.cleaners ensures CleanerBounded(w', w'.cleaners[r]) { assert CleanerBounded(w, w.cleaners[r]); }
    forall v | v in w'.db.variants ensures VariantStored(w', v) { assert VariantStored(w, v); }
    forall r | r in w'.readers ensures ViewDated(w'.db, r, w'.now) { assert ViewDated(w.db, r, w.now); }
  }

  lemma QuietStep(w: World, db': Db)
    requires Inv(w) && Quiet(w.db, db')
    requires forall v :: v in db'.views ==> v in w.db.views && db'.views[v].deliveredAt == w.db.views[v].deliveredAt
    ensures Inv(w.(db := db')) && Evolves(w.db, db')
  {
    ViewDateKept(w.db, db');
    QuietKeeps(w.db, db', w.now, w.lifetime);
    DbStep(w, db');
  }

  ghost predicate Kept(w: World, w': World) {
    Inv(w') && Evolves(w.db, w'.db) && w.now <= w'.now && w'.lifetime == w.lifetime
  }

  // ------------------------------------------------------------ object steps

  lemma ClockKept(w: World, to: int)
    requires Inv(w) && w.now <= to
    ensures Kept(w, w.(now := to))
  {
    TickKeeps(w.db, w.now, w.lifetime, to);
  }

  lemma ObjectAdded(w: World, key: string)
    requires Inv(w)
    ensures Kept(w, w.(objects := w.objects + {key}))
  {
    var w' := w.(objects := w.objects + {key});
    forall r | r in w'.media ensures RunBacked(w', w'.media[r]) { assert RunBacked(w, w.media[r]); }
    forall r | r in w'.cleaners ensures CleanerBounded(w', w'.cleaners[r]) { assert CleanerBounded(w, w.cleaners[r]); }
    forall v | v in w'.db.variants ensures VariantStored(w', v) { assert VariantStored(w, v); }
  }

  lemma MediaRunSet(w: World, run: nat, m: MediaRun)
    requires Inv(w) && RunBacked(w, m)
    ensures Kept(w, w.(media := w.media[run := m]))
  {
    var w' := w.(media := w.media[run := m]);
    forall r | r in w'.media ensures RunBacked(w', w'.media[r]) {
      if r != run { assert RunBacked(w, w.media[r]); }
    }
    forall r | r in w'.cleaners ensures CleanerBounded(w', w'.cleaners[r]) { assert CleanerBounded(w, w.cleaners[r]); }
    forall v | v in w'.db.variants ensures VariantStored(w', v) { assert VariantStored(w, v); }
  }

  lemma CleanerSet(w: World, run: nat, c: CleanupRun)
    requires Inv(w) && CleanerBounded(w, c)
    ensures Kept(w, w.(cleaners := w.cleaners[run := c]))
  {
    var w' := w.(cleaners := w.cleaners[run := c]);
    forall r | r in w'.media ensures RunBacked(w', w'.media[r]) { assert RunBacked(w, w.media[r]); }
    forall r | r in w'.cleaners ensures CleanerBounded(w', w'.cleaners[r]) {
      if r != run { assert CleanerBounded(w, w.cleaners[r]); }
    }
    forall v | v in w'.db.variants ensures VariantStored(w', v) { assert VariantStored(w, v); }
  }

  lemma RunsDropped(w: World, media: set<nat>, cleaners: set<nat>)
    requires Inv(w)
    ensures Kept(w, w.(media := w.media - media, cleaners := w.cleaners - cleaners))
  {
    var w' := w.(media := w.media - media, cleaners := w.cleaners - cleaners);
    forall r | r in w'.media ensures RunBacked(w', w'.media[r]) { assert RunBacked(w, w.media[r]); }
    forall r | r in w'.cleaners ensures CleanerBounded(w', w'.cleaners[r]) { assert CleanerBounded(w, w.cleaners[r]); }
    forall v | v in w'.db.variants ensures VariantStored(w', v) { assert VariantStored(w, v); }
  }

  lemma PutKept(w: World, run: nat, kind: VariantKind, ext: string)
    requires Inv(w) && run in w.media
    ensures Kept(w, Apply(w, PutVariant(run, kind, ext)))
  {
    hide DbInv, Evolves;
    var m := w.media[run];
    var v := Variant(kind, VariantKey(UuidText(m.story), kind.Name(), ext));
    var w1 := w.(objects := w.objects + {v.key});
    ObjectAdded(w, v.key);
    assert RunBacked(w1, m);
    assert RunBacked(w1, m.(puts := m.puts + [v])) by { assert StoryKey(m.story, v.key); }
    MediaRunSet(w1, run, m.(puts := m.puts + [v]));
  }

  /** Whatever a cleanup handler still has to delete belongs to stories that are gone. */
  lemma TodoOfGone(w: World, run: nat, key: string)
    requires Inv(w) && run in w.cleaners && key in w.cleaners[run].todo
    ensures forall s: Uuid :: StoryKey(s, key) ==> s in w.db.stories && w.db.stories[s].state.Gone()
  {
    assert CleanerBounded(w, w.cleaners[run]);
    assert PayloadSafe(w.db, w.db.cleanup[w.cleaners[run].job].keys);
  }

  lemma VariantOwned(db: Db, now: int, lifetime: int, v: (Uuid, VariantKind))
    requires DbInv(db, now, lifetime) && v in db.variants
    ensures StoryKey(v.0, db.variants[v])
  {
  }

  lemma ObjectRemoved(w: World, key: string)
    requires Inv(w)
    requires forall s: Uuid :: StoryKey(s, key) ==> s in w.db.stories && w.db.stories[s].state.Gone()
    ensures Kept(w, w.(objects := w.objects - {key}))
  {
    hide DbInv, Evolves;
    var w' := w.(objects := w.objects - {key});
    forall r | r in w'.media ensures RunBacked(w', w'.media[r]) { assert RunBacked(w, w.media[r]); }
    forall r | r in w'.cleaners ensures CleanerBounded(w', w'.cleaners[r]) { assert CleanerBounded(w, w.cleaners[r]); }
    forall v | v in w'.db.variants ensures VariantStored(w', v) {
      assert VariantStored(w, v);
      VariantOwned(w.db, w.now, w.lifetime, v);
    }
    KeptItself(w);
  }

  lemma KeptItself(w: World)
    requires Inv(w)
    ensures Kept(w, w)
  {
    hide Inv;
  }

  lemma DeleteObjectKept(w: World, run: nat, key: string)
    requires Inv(w) && run in w.cleaners && key in w.cleaners[run].todo
    ensures Kept(w, Apply(w, DeleteObject(run, key)))
  {
    hide DbInv, Evolves;
    var c := w.cleaners[run];
    assert CleanerBounded(w, c);
    TodoOfGone(w, run, key);
    ObjectRemoved(w, key);
    CleanerSet(w.(objects := w.objects - {key}), run, c.(todo := c.todo - {key}));
  }

  // ------------------------------------------------------------- table steps

  lemma PublishKept(w: World, run: nat, cleanupId: Uuid)
    requires Inv(w) && run in w.media && cleanupId !in w.db.cleanup
    ensures Kept(w, Apply(w, Publish(run, cleanupId)))
  {
    hide DbInv, Evolves;
    var m := w.media[run];
    var r := T.PublishStory(w.db, w.now, m.job, m.story, m.puts, w.lifetime, cleanupId);
    assert RunBacked(w, m);
    if r.Some? {
      PublishKeeps(w.db, w.now, w.lifetime, m.job, m.story, m.puts, cleanupId);
      PublishedStored(w, m, r.value);
      RunsDropped(w.(db := r.value), {run}, {});
      assert w.cleaners - {} == w.cleaners;
    } else {
      RunsDropped(w, {run}, {});
      assert w.cleaners - {} == w.cleaners;
    }
  }

  lemma PublishedStored(w: World, m: MediaRun, db': Db)
    requires Inv(w) && RunBacked(w, m) && w.db.stories[m.story].state.Processing?
    requires DbInv(db', w.now, w.lifetime) && Evolves(w.db, db')
    requires db'.variants == T.UpsertVariants(w.db.variants, m.story, m.puts)
    ensures Inv(w.(db := db'))
  {
    hide T.UpsertVariants, DbInv, CleanerBounded, VariantStored, ViewDated, Evolves;
    var w' := w.(db := db');
    UpsertStored(w, m, db');
    hide RunBacked;
    forall r | r in w'.media ensures RunBacked(w', w'.media[r]) { RunStaysBacked(w, db', w.media[r]); }
    forall r | r in w'.cleaners ensures CleanerBounded(w', w'.cleaners[r]) { CleanerStaysBounded(w, db', w.cleaners[r]); }
    forall r | r in w'.readers ensures ViewDated(w'.db, r, w'.now) { ViewStaysDated(w.db, db', r, w.now); }
  }

  lemma RunStaysBacked(w: World, db': Db, run: MediaRun)
    requires RunBacked(w, run) && Evolves(w.db, db')
    ensures RunBacked(w.(db := db'), run)
  {
  }

  lemma CleanerStaysBounded(w: World, db': Db, run: CleanupRun)
    requires CleanerBounded(w, run) && Evolves(w.db, db')
    ensures CleanerBounded(w.(db := db'), run)
  {
  }

  lemma ViewStaysDated(db: Db, db': Db, v: (Uuid, Uuid), at: int)
    requires ViewDated(db, v, at) && Evolves(db, db')
    ensures ViewDated(db', v, at)
  {
  }

  lemma UpsertStored(w: World, m: MediaRun, db': Db)
    requires Inv(w) && RunBacked(w, m) && w.db.stories[m.story].state.Processing? && Evolves(w.db, db')
    requires db'.variants == T.UpsertVariants(w.db.variants, m.story, m.puts)
    ensures forall v :: v in db'.variants ==> VariantStored(w.(db := db'), v)
  {
    UpsertFacts(w.db.variants, m.story, m.puts);
    hide T.UpsertVariants, Linked, Lifecycle, PayloadsSafe, NothingLost, ViewsDated, Fixed;
    var w' := w.(db := db');
    forall v | v in db'.variants ensures VariantStored(w', v) {
      if v in w.db.variants && w.db.variants[v] == db'.variants[v] {
        assert VariantStored(w, v);
      } else {
        assert Variant(v.1, db'.variants[v]) in m.puts;
      }
    }
  }

  lemma FailMediaVariants(db: Db, now: int, job: Uuid, story: Uuid, retryable: bool, cleanupId: Uuid)
    requires T.FailMediaJob(db, now, job, story, retryable, cleanupId).Some?
    ensures T.FailMediaJob(db, now, job, story, retryable, cleanupId).value.variants == db.variants
  {
  }

  lemma FailMediaKept(w: World, run: nat, retryable: bool, cleanupId: Uuid)
    requires Inv(w) && run in w.media && cleanupId !in w.db.cleanup
    ensures Kept(w, Apply(w, FailMedia(run, retryable, cleanupId)))
  {
    hide DbInv, Evolves;
    var m := w.media[run];
    assert RunBacked(w, m);
    var db' := T.FailMediaJob(w.db, w.now, m.job, m.story, retryable, cleanupId);
    FailMediaKeeps(w.db, w.now, w.lifetime, m.job, retryable, cleanupId);
    FailMediaVariants(w.db, w.now, m.job, m.story, retryable, cleanupId);
    DbStep(w, db'.value);
    RunsDropped(w.(db := db'.value), {run}, {});
    assert w.cleaners - {} == w.cleaners;
  }

  lemma InvJobFacts(w: World, job: Uuid)
    requires Inv(w) && job in w.db.jobs
    ensures w.db.jobs[job].inputStory in w.db.stories
  {
    JobFacts(w.db, w.now, w.lifetime, job);
  }

  lemma ClaimMediaKept(w: World, run: nat, job: Uuid, owner: string, lease: int)
    requires Inv(w) && MediaDue(w.db, job, w.now)
    ensures run !in w.media ==> Kept(w, Apply(w, ClaimMedia(run, job, owner, lease)))
  {
    hide DbInv, Evolves;
    var db' := T.ClaimMediaJob(w.db, job, owner, w.now, lease);
    ClaimMediaQuiet(w.db, job, owner, w.now, lease);
    QuietStep(w, db');
    InvJobFacts(w, job);
    MediaRunSet(w.(db := db'), run, MediaRun(job, w.db.jobs[job].inputStory, []));
  }

  lemma CleanupRowKept(w: World, id: Uuid, row: CleanupJob)
    requires Inv(w) && id in w.db.cleanup && row.keys == w.db.cleanup[id].keys
    ensures Kept(w, w.(db := w.db.(cleanup := w.db.cleanup[id := row])))
  {
    CleanupRowQuiet(w.db, id, row);
    QuietStep(w, w.db.(cleanup := w.db.cleanup[id := row]));
  }

  lemma ClaimCleanupKept(w: World, run: nat, job: Uuid, owner: string, lease: int)
    requires Inv(w) && CleanupDue(w.db, job, w.now)
    ensures run !in w.cleaners ==> Kept(w, Apply(w, ClaimCleanup(run, job, owner, lease)))
  {
    hide DbInv, Evolves;
    var db' := T.ClaimCleanupJob(w.db, job, owner, w.now, lease);
    var j := db'.cleanup[job];
    CleanupRowKept(w, job, j);
    CleanerSet(w.(db := db'), run, CleanupRun(job, j.attempts, j.maxAttempts, j.keys));
  }

  lemma EndCleanupKept(w: World, run: nat)
    requires Inv(w) && run in w.cleaners
    ensures w.cleaners[run].todo == {} ==> Kept(w, Apply(w, CompleteCleanup(run)))
    ensures Kept(w, Apply(w, FailCleanup(run)))
  {
    hide DbInv, Evolves;
    var c := w.cleaners[run];
    assert CleanerBounded(w, c);
    var done := T.CompleteCleanupJob(w.db, c.job);
    var failed := T.FailCleanupJob(w.db, w.now, c.job, c.attempts, c.max);
    assert w.media - {} == w.media;
    CleanupRowKept(w, c.job, done.cleanup[c.job]);
    assert done == w.db.(cleanup := w.db.cleanup[c.job := done.cleanup[c.job]]);
    RunsDropped(w.(db := done), {}, {run});
    CleanupRowKept(w, c.job, failed.cleanup[c.job]);
    assert failed == w.db.(cleanup := w.db.cleanup[c.job := failed.cleanup[c.job]]);
    RunsDropped(w.(db := failed), {}, {run});
  }

  lemma DeleteStoryKept(w: World, actor: Uuid, story: Uuid, moderator: bool, cleanupId: Uuid)
    requires Inv(w) && cleanupId !in w.db.cleanup
    ensures Kept(w, Apply(w, Delete(actor, story, moderator, cleanupId)))
  {
    hide DbInv, Evolves;
    var r := T.DeleteStory(w.db, w.now, actor, story, moderator, cleanupId);
    KeptItself(w);
    if r.Some? {
      DeleteKeeps(w.db, w.now, w.lifetime, actor, story, moderator, cleanupId);
      DbStep(w, r.value);
    }
  }

  lemma UpdateKept(w: World, actor: Uuid, story: Uuid, edit: Edit)
    requires Inv(w)
    ensures Kept(w, Apply(w, Update(actor, story, edit)))
  {
    hide DbInv, Evolves;
    KeptItself(w);
    if T.UpdateStory(w.db, actor, story, edit).Some? {
      UpdateQuiet(w.db, actor, story, edit);
      QuietStep(w, T.UpdateStory(w.db, actor, story, edit).value);
    }
  }

  lemma SweepsKept(w: World, a: Action)
    requires Inv(w) && Enabled(w, a)
    requires a.Expire? || a.CollectUploads? || a.PurgeViews? || a.Reap?
    ensures Kept(w, Apply(w, a))
  {
    hide DbInv, Evolves;
    match a
    case Expire(batch) =>
      ExpireKeeps(w.db, w.now, w.lifetime, batch);
      DbStep(w, T.ExpireStories(w.db, w.now, batch));
    case CollectUploads(due, cleanupId) =>
      CollectKeeps(w.db, w.now, w.lifetime, due, cleanupId);
      DbStep(w, T.GCAbandonedUploads(w.db, w.now, due, cleanupId));
    case PurgeViews(retention) =>
      ViewsQuiet(w.db, T.PurgeViews(w.db, w.now, retention).views);
      QuietStep(w, T.PurgeViews(w.db, w.now, retention));
    case Reap =>
      ReapQuiet(w.db, w.now);
      QuietStep(w, T.ReapExpiredLeases(w.db, w.now));
  }

  lemma UploadsKept(w: World, a: Action)
    requires Inv(w) && Enabled(w, a)
    requires a.CreateIntent? || a.Finalize?
    ensures Kept(w, Apply(w, a))
  {
    hide DbInv, Evolves;
    match a
    case CreateIntent(id, user, key, ttl) =>
      CreateKeeps(w.db, w.now, w.lifetime, id, user, key, w.now + ttl);
      DbStep(w, T.CreateUploadIntent(w.db, id, user, key, w.now + ttl));
    case Finalize(user, upload, job, story, draft) =>
      FinalizeKeeps(w.db, w.now, w.lifetime, user, upload, job, story, draft);
      DbStep(w, T.FinalizeUpload(w.db, w.now, user, upload, job, story, draft));
  }

  lemma StoryDated(w: World, story: Uuid)
    requires Inv(w) && story in w.db.stories
    ensures Dated(w.db.stories[story], w.now, w.lifetime)
  {
  }

  lemma ResolveKept(w: World, story: Uuid, viewer: Uuid)
    requires Inv(w) && story in w.db.stories && Live(w.db.stories[story], w.now)
    ensures Kept(w, Apply(w, Resolve(story, viewer)))
  {
    hide DbInv, Evolves;
    var w' := Apply(w, Resolve(story, viewer));
    StoryDated(w, story);
    KeptItself(w);
    forall r | r in w'.media ensures RunBacked(w', w'.media[r]) { assert RunBacked(w, w.media[r]); }
    forall r | r in w'.cleaners ensures CleanerBounded(w', w'.cleaners[r]) { assert CleanerBounded(w, w.cleaners[r]); }
    forall v | v in w'.db.variants ensures VariantStored(w', v) { assert VariantStored(w, v); }
  }

  lemma ViewDatedNow(w: World, views: map<(Uuid, Uuid), View>, v: (Uuid, Uuid))
    requires Inv(w) && v in w.readers
    requires forall u :: u in views ==>
               (u in w.db.views && views[u].deliveredAt == w.db.views[u].deliveredAt) || (u == v && views[u].deliveredAt == w.now)
    ensures ViewsDated(w.db.(views := views))
  {
    assert ViewDated(w.db, v, w.now);
    ViewDateKept(w.db, w.db.(views := views));
  }

  lemma ViewsStep(w: World, views: map<(Uuid, Uuid), View>)
    requires Inv(w) && ViewsDated(w.db.(views := views))
    ensures Kept(w, w.(db := w.db.(views := views)))
  {
    var db' := w.db.(views := views);
    ViewsQuiet(w.db, views);
    QuietKeeps(w.db, db', w.now, w.lifetime);
    DbStep(w, db');
  }

  lemma RecordKept(w: World, story: Uuid, viewer: Uuid)
    requires Inv(w) && (story, viewer) in w.readers
    ensures Kept(w, Apply(w, RecordView(story, viewer)))
  {
    hide Inv, DbInv, Evolves;
    var db' := T.RecordView(w.db, w.now, story, viewer);
    ViewDatedNow(w, db'.views, (story, viewer));
    assert db' == w.db.(views := db'.views);
    ViewsStep(w, db'.views);
  }

  lemma AcknowledgeKept(w: World, story: Uuid, viewer: Uuid)
    requires Inv(w) && (story, viewer) in w.readers
    ensures Kept(w, Apply(w, AcknowledgeView(story, viewer)))
  {
    hide Inv, DbInv, Evolves;
    var db' := T.AcknowledgeView(w.db, w.now, story, viewer);
    ViewDatedNow(w, db'.views, (story, viewer));
    assert db' == w.db.(views := db'.views);
    ViewsStep(w, db'.views);
  }

  /** Every step of every participant keeps the invariant. */
  lemma StepKept(w: World, a: Action)
    requires Inv(w) && Enabled(w, a)
    ensures Kept(w, Apply(w, a))
  {
    hide Inv, Evolves, DbInv;
    match a
    case Tick(to) => ClockKept(w, to);
    case ClientPut(upload) => ObjectAdded(w, w.db.intents[upload].objectKey);
    case ClaimMedia(run, job, owner, lease) => ClaimMediaKept(w, run, job, owner, lease);
    case PutVariant(run, kind, ext) => PutKept(w, run, kind, ext);
    case Publish(run, cleanupId) => PublishKept(w, run, cleanupId);
    case FailMedia(run, retryable, cleanupId) => FailMediaKept(w, run, retryable, cleanupId);
    case DropMedia(run) => RunsDropped(w, {run}, {}); assert w.cleaners - {} == w.cleaners;
    case Delete(actor, story, moderator, cleanupId) => DeleteStoryKept(w, actor, story, moderator, cleanupId);
    case Update(actor, story, edit) => UpdateKept(w, actor, story, edit);
    case ClaimCleanup(run, job, owner, lease) => ClaimCleanupKept(w, run, job, owner, lease);
    case DeleteObject(run, key) => DeleteObjectKept(w, run, key);
    case CompleteCleanup(run) => EndCleanupKept(w, run);
    case FailCleanup(run) => EndCleanupKept(w, run);
    case DropCleanup(run) => RunsDropped(w, {}, {run}); assert w.media - {} == w.media;
    case Resolve(story, viewer) => ResolveKept(w, story, viewer);
    case RecordView(story, viewer) => RecordKept(w, story, viewer);
    case AcknowledgeView(story, viewer) => AcknowledgeKept(w, story, viewer);
    case CreateIntent(_, _, _, _) => UploadsKept(w, a);
    case Finalize(_, _, _, _, _) => UploadsKept(w, a);
    case _ => SweepsKept(w, a);
  }
}
