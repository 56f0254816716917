/** How long the uploaded original of a story is kept: as long as a retry may need it. */
module Originals {
  import opened Options
  import opened ObjectKeys
  import opened Tables
  import opened PipelineInvariant
  import opened PipelineSteps
  import opened PipelineSafety
  import opened Protocol
  import opened OrphanedMedia
  import opened ShortRun
  import PT = PipelineTheorems
  import T = Transactions

  ghost predicate Owns(db: Db, i: Uuid, key: string) {
    i in db.intents && db.intents[i].objectKey == key
  }

  /** The story a media job was queued for is no longer processing. */
  ghost predicate Decided(db: Db, j: Uuid) {
    j in db.jobs && db.jobs[j].inputStory in db.stories && !db.stories[db.jobs[j].inputStory].state.Processing?
  }

  /** Nobody will need the upload again: it was abandoned, or its story is no longer processing. */
  ghost predicate Spent(db: Db, i: Uuid) {
    i in db.intents && (db.intents[i].state.Expired? || exists j :: QueuedFor(db, j, i) && Decided(db, j))
  }

  ghost predicate SpentOwner(db: Db, key: string) {
    exists i :: Owns(db, i, key) && Spent(db, i)
  }

  ghost predicate PayloadSpent(db: Db, keys: set<string>) {
    forall key :: key in keys && UploadKey(key) ==> SpentOwner(db, key)
  }

  /** Every upload a delete_objects job lists is spent. */
  ghost predicate UploadsSpent(db: Db) {
    forall c :: c in db.cleanup ==> PayloadSpent(db, db.cleanup[c].keys)
  }

  ghost predicate KeysDistinct(db: Db) {
    forall i, k :: i in db.intents && k in db.intents && db.intents[i].objectKey == db.intents[k].objectKey ==> i == k
  }

  // ------------------------------------------------------------------ payloads

  ghost predicate ExpiredStay(db: Db, db': Db) {
    forall i :: i in db.intents && db.intents[i].state.Expired? ==> i in db'.intents && db'.intents[i].state.Expired?
  }

  ghost predicate NewSpent(db: Db, db': Db) {
    forall c :: c in db'.cleanup && c !in db.cleanup ==> PayloadSpent(db', db'.cleanup[c].keys)
  }

  lemma DecidedStays(db: Db, db': Db, j: Uuid)
    requires Evolves(db, db') && Decided(db, j)
    ensures Decided(db', j)
  {
    PT.StoryEvolved(db, db', db.jobs[j].inputStory);
  }

  lemma SpentStays(db: Db, db': Db, key: string)
    requires Evolves(db, db') && ExpiredStay(db, db') && SpentOwner(db, key)
    ensures SpentOwner(db', key)
  {
    var i :| Owns(db, i, key) && Spent(db, i);
    if !db.intents[i].state.Expired? {
      var j :| QueuedFor(db, j, i) && Decided(db, j);
      DecidedStays(db, db', j);
      assert QueuedFor(db', j, i);
    }
    assert Owns(db', i, key) && Spent(db', i);
  }

  lemma SpentFrom(db: Db, db': Db)
    requires UploadsSpent(db) && Evolves(db, db') && ExpiredStay(db, db') && NewSpent(db, db')
    ensures UploadsSpent(db')
  {
    forall c | c in db'.cleanup
      ensures PayloadSpent(db', db'.cleanup[c].keys)
    {
      if c in db.cleanup {
        assert Fixed(db, db');
        assert PayloadSpent(db, db.cleanup[c].keys) && db'.cleanup[c].keys == db.cleanup[c].keys;
        forall key | key in db.cleanup[c].keys && UploadKey(key)
          ensures SpentOwner(db', key)
        {
          SpentStays(db, db', key);
        }
      }
    }
  }

  /** Media keys are no uploads. */
  lemma VariantsSpent(db: Db, db': Db, story: Uuid)
    requires VariantsOwned(db)
    ensures PayloadSpent(db', VariantKeys(db.variants, story)) && PayloadSpent(db', {""})
    ensures PayloadSpent(db', T.ExpiryKeys(db.variants, story))
  {
    forall key | key in VariantKeys(db.variants, story)
      ensures !UploadKey(key)
    {
      var kind: VariantKind :| (story, kind) in db.variants && db.variants[(story, kind)] == key;
      KeySpacesDisjoint(story, key);
    }
  }

  lemma OriginalSpent(db: Db, job: Uuid)
    requires OriginalOf(db, job).Some? && Decided(db, job)
    ensures PayloadSpent(db, {OriginalOf(db, job).value})
  {
    var i := db.jobs[job].intent;
    assert QueuedFor(db, job, i) && Spent(db, i);
    assert Owns(db, i, OriginalOf(db, job).value);
  }

  // --------------------------------------------------------------------- steps

  /** Both transactions that schedule an original leave its story decided. */
  lemma PublishDecides(db: Db, now: int, job: Uuid, story: Uuid, vs: seq<Variant>, lifetime: int, cleanupId: Uuid)
    requires job in db.jobs && db.jobs[job].inputStory == story && story in db.stories
    ensures var r := T.PublishStory(db, now, job, story, vs, lifetime, cleanupId);
      r.Some? ==>
        && Decided(r.value, job) && r.value.intents == db.intents
        && OriginalOf(r.value, job) == OriginalOf(db, job) && OnlyNew(db, r.value, OriginalOf(db, job), cleanupId)
  {
    hide T.UpsertVariants;
  }

  ghost predicate OnlyNew(db: Db, db': Db, original: Option<string>, cleanupId: Uuid) {
    forall c :: c in db'.cleanup && c !in db.cleanup ==>
      c == cleanupId && original.Some? && db'.cleanup[c].keys == {original.value}
  }

  lemma FailDecides(db: Db, now: int, job: Uuid, story: Uuid, retryable: bool, cleanupId: Uuid)
    requires job in db.jobs && db.jobs[job].inputStory == story && story in db.stories
    ensures var r := T.FailMediaJob(db, now, job, story, retryable, cleanupId);
      && r.Some? && r.value.intents == db.intents
      && (r.value.cleanup == db.cleanup
          || (Decided(r.value, job) && OriginalOf(r.value, job) == OriginalOf(db, job)
              && OnlyNew(db, r.value, OriginalOf(db, job), cleanupId)))
  {
    hide Backoff;
  }

  lemma OriginalStepSpent(db: Db, db': Db, job: Uuid, cleanupId: Uuid)
    requires db'.cleanup == db.cleanup || (Decided(db', job) && OnlyNew(db, db', OriginalOf(db', job), cleanupId))
    ensures NewSpent(db, db')
  {
    if OriginalOf(db', job).Some? && Decided(db', job) {
      OriginalSpent(db', job);
    }
    hide PayloadSpent, Decided, OriginalOf;
  }

  lemma MediaStepSpent(w: World, a: Action)
    requires Inv(w) && Enabled(w, a) && (a.Publish? || a.FailMedia?)
    ensures NewSpent(w.db, Apply(w, a).db)
  {
    var m := w.media[a.run];
    assert RunBacked(w, m);
    hide Inv, NewSpent, Decided, OriginalOf, OnlyNew;
    if a.Publish? {
      PublishDecides(w.db, w.now, m.job, m.story, m.puts, w.lifetime, a.cleanupId);
    } else {
      FailDecides(w.db, w.now, m.job, m.story, a.retryable, a.cleanupId);
    }
    hide T.PublishStory, T.FailMediaJob;
    OriginalStepSpent(w.db, Apply(w, a).db, m.job, a.cleanupId);
  }

  lemma DeleteSpent(w: World, a: Action)
    requires VariantsOwned(w.db) && Enabled(w, a) && a.Delete?
    ensures NewSpent(w.db, Apply(w, a).db)
  {
    VariantsSpent(w.db, Apply(w, a).db, a.story);
    hide PayloadSpent, VariantKeys;
  }

  lemma ExpireSpent(db: Db, now: int, batch: map<Uuid, Uuid>)
    requires VariantsOwned(db)
    ensures NewSpent(db, T.ExpireStories(db, now, batch))
  {
    var db' := T.ExpireStories(db, now, batch);
    hide PayloadSpent, T.ExpiryKeys, VariantsOwned;
    forall c | c in db'.cleanup && c !in db.cleanup
      ensures PayloadSpent(db', db'.cleanup[c].keys)
    {
      VariantsSpent(db, db', batch[c]);
    }
  }

  lemma CollectSpent(db: Db, now: int, due: set<Uuid>, cleanupId: Uuid)
    ensures NewSpent(db, T.GCAbandonedUploads(db, now, due, cleanupId))
  {
    var db' := T.GCAbandonedUploads(db, now, due, cleanupId);
    if due != {} {
      forall key | key in db'.cleanup[cleanupId].keys
        ensures SpentOwner(db', key)
      {
        var i :| i in due && i in db.intents && db.intents[i].objectKey == key;
        assert Owns(db', i, key) && Spent(db', i);
      }
    }
    hide SpentOwner;
  }

  lemma StepSpends(w: World, a: Action)
    requires Inv(w) && Enabled(w, a)
    ensures NewSpent(w.db, Apply(w, a).db)
  {
    InvParts(w);
    StepKept(w, a);
    assert Fixed(w.db, Apply(w, a).db);
    hide Inv, Kept, Fixed, NewSpent, VariantsOwned;
    if a.Publish? || a.FailMedia? {
      MediaStepSpent(w, a);
    } else if a.Delete? {
      DeleteSpent(w, a);
    } else if a.Expire? {
      ExpireSpent(w.db, w.now, a.batch);
    } else if a.CollectUploads? {
      CollectSpent(w.db, w.now, a.due, a.cleanupId);
    } else {
      OthersScheduleNothing(w, a);
      NothingNew(w.db, Apply(w, a).db);
    }
  }

  lemma NothingNew(db: Db, db': Db)
    requires Untouched(db, db')
    ensures NewSpent(db, db')
  {
  }

  // ----------------------------------------------------------------- intents

  predicate WritesIntents(a: Action) {
    a.CreateIntent? || a.Finalize? || a.CollectUploads?
  }

  lemma WorkersLeaveIntents(w: World, a: Action)
    requires Enabled(w, a) && (a.ClaimMedia? || a.PutVariant? || a.Publish? || a.FailMedia? || a.DropMedia?)
    ensures Apply(w, a).db.intents == w.db.intents
  {
    hide T.UpsertVariants, Backoff;
  }

  lemma CleanersLeaveIntents(w: World, a: Action)
    requires Enabled(w, a) && (a.ClaimCleanup? || a.DeleteObject? || a.CompleteCleanup? || a.FailCleanup? || a.DropCleanup?)
    ensures Apply(w, a).db.intents == w.db.intents
  {
    hide Backoff;
  }

  lemma OthersLeaveIntents(w: World, a: Action)
    requires Enabled(w, a) && (a.Tick? || a.ClientPut? || a.Delete? || a.Update? || a.Expire? || a.PurgeViews? || a.Reap?
      || a.Resolve? || a.RecordView? || a.AcknowledgeView?)
    ensures Apply(w, a).db.intents == w.db.intents
  {
  }

  lemma IntentsLeft(w: World, a: Action)
    requires Enabled(w, a) && !WritesIntents(a)
    ensures Apply(w, a).db.intents == w.db.intents
  {
    hide Enabled, Apply;
    if a.ClaimMedia? || a.PutVariant? || a.Publish? || a.FailMedia? || a.DropMedia? {
      WorkersLeaveIntents(w, a);
    } else if a.ClaimCleanup? || a.DeleteObject? || a.CompleteCleanup? || a.FailCleanup? || a.DropCleanup? {
      CleanersLeaveIntents(w, a);
    } else {
      OthersLeaveIntents(w, a);
    }
  }

  lemma IntentsStep(w: World, a: Action)
    requires KeysDistinct(w.db) && Enabled(w, a)
    ensures KeysDistinct(Apply(w, a).db) && ExpiredStay(w.db, Apply(w, a).db)
  {
    if !WritesIntents(a) {
      IntentsLeft(w, a);
      hide Enabled, Apply;
    }
  }

  ghost predicate Kempt(w: World) {
    UploadsSpent(w.db) && KeysDistinct(w.db)
  }

  lemma StepKempt(w: World, a: Action)
    requires Inv(w) && Kempt(w) && Enabled(w, a)
    ensures Kempt(Apply(w, a))
  {
    StepKept(w, a);
    StepSpends(w, a);
    IntentsStep(w, a);
    hide Inv, Apply, Enabled, KeysDistinct, NewSpent, ExpiredStay, UploadsSpent, Evolves;
    SpentFrom(w.db, Apply(w, a).db);
  }

  lemma {:induction false} PathKempt(w: World, steps: seq<Action>, w': World)
    requires Inv(w) && Kempt(w) && Path(w, steps, w')
    ensures Kempt(w')
    decreases |steps|
  {
    hide Inv, Evolves, Kempt;
    if steps != [] {
      StepKept(w, steps[0]);
      StepKempt(w, steps[0]);
      PathKempt(Apply(w, steps[0]), steps[1..], w');
    }
  }

  lemma ReachableKempt(w: World)
    requires Reachable(w)
    ensures Kempt(w)
  {
    hide Inv;
    var w0: World, steps: seq<Action> :| Initial(w0) && Path(w0, steps, w);
    InitialInv(w0);
    PathKempt(w0, steps, w);
  }

  // ------------------------------------------------------------------ theorems

  lemma ListedIsSpent(db: Db, upload: Uuid)
    requires Linked(db) && UploadsSpent(db) && KeysDistinct(db) && upload in db.intents
    ensures Listed(db, db.intents[upload].objectKey) ==> Spent(db, upload)
  {
    var key := db.intents[upload].objectKey;
    assert IntentLinked(db, upload);
    if Listed(db, key) {
      var c :| c in db.cleanup && key in db.cleanup[c].keys;
      assert PayloadSpent(db, db.cleanup[c].keys);
      var i :| Owns(db, i, key) && Spent(db, i);
    }
  }

  /** A delete_objects job lists an upload only once it has been abandoned or its story is no longer processing. */
  lemma ListedUploadsAreSpent(w: World, upload: Uuid)
    requires Reachable(w) && upload in w.db.intents
    ensures Listed(w.db, w.db.intents[upload].objectKey) ==> Spent(w.db, upload)
  {
    PT.ReachableInv(w);
    ReachableKempt(w);
    InvParts(w);
    hide Inv, Linked, UploadsSpent, KeysDistinct;
    ListedIsSpent(w.db, upload);
  }

  lemma ProcessingIsUnspent(db: Db, story: Uuid)
    requires Linked(db) && story in db.stories && db.stories[story].state.Processing?
    ensures var job := db.stories[story].job; job in db.jobs && db.jobs[job].intent in db.intents && !Spent(db, db.jobs[job].intent)
    ensures OriginalOf(db, db.stories[story].job) == Some(db.jobs[db.stories[story].job].inputKey)
  {
    var job := db.stories[story].job;
    assert StoryLinked(db, story) && JobLinked(db, job);
    var i := db.jobs[job].intent;
    assert QueuedFor(db, job, i);
    forall j | QueuedFor(db, j, i)
      ensures !Decided(db, j)
    {
      assert j == job;
    }
  }

  /**
   * In every reachable state the frozen input of a story that is still processing is on no delete_objects job's
   * list and nobody is about to delete it.
   */
  lemma InputIsKept(w: World, story: Uuid)
    requires Reachable(w) && story in w.db.stories && w.db.stories[story].state.Processing?
    ensures w.db.stories[story].job in w.db.jobs
    ensures var key := w.db.jobs[w.db.stories[story].job].inputKey;
      && OriginalOf(w.db, w.db.stories[story].job) == Some(key)
      && !Listed(w.db, key)
      && forall r :: r in w.cleaners ==> key !in w.cleaners[r].todo
  {
    PT.ReachableInv(w);
    InvParts(w);
    ProcessingIsUnspent(w.db, story);
    var job := w.db.stories[story].job;
    var key := w.db.jobs[job].inputKey;
    hide Spent, Linked, OriginalOf;
    ListedUploadsAreSpent(w, w.db.jobs[job].intent);
    OriginalKey(w.db, job);
    forall r | r in w.cleaners
      ensures key !in w.cleaners[r].todo
    {
      TodoIsListed(w, r, key);
    }
  }

  lemma OriginalKey(db: Db, job: Uuid)
    requires job in db.jobs && db.jobs[job].intent in db.intents
    ensures OriginalOf(db, job) == Some(db.intents[db.jobs[job].intent].objectKey)
  {
  }

  lemma TodoIsListed(w: World, run: nat, key: string)
    requires Inv(w) && run in w.cleaners
    ensures key in w.cleaners[run].todo ==> Listed(w.db, key)
  {
    assert CleanerBounded(w, w.cleaners[run]);
    hide DbInv;
  }

  /** Unless the story was deleted before it was published, its original is listed exactly if it is no longer processing. */
  lemma OriginalListedExactly(w: World, story: Uuid)
    requires Reachable(w) && story in w.db.stories
    requires w.db.stories[story].state.Gone() ==> w.db.stories[story].publishedAt.Some?
    ensures OriginalOf(w.db, w.db.stories[story].job).Some?
    ensures Listed(w.db, OriginalOf(w.db, w.db.stories[story].job).value) <==> !w.db.stories[story].state.Processing?
  {
    PT.ReachableInv(w);
    StoryDated(w, story);
    hide Inv, Listed;
    if w.db.stories[story].state.Processing? {
      InputIsKept(w, story);
    } else {
      PT.CleanupLosesNothing(w, story);
      ScheduledIsListed(w.db, w.db.stories[story].job);
    }
  }

  lemma ScheduledIsListed(db: Db, job: Uuid)
    requires OriginalScheduled(db, job)
    ensures OriginalOf(db, job).Some? && Listed(db, OriginalOf(db, job).value)
  {
    var key := OriginalOf(db, job).value;
    var c :| c in db.cleanup && {key} <= db.cleanup[c].keys;
    assert key in db.cleanup[c].keys;
  }

  lemma SpentForGood(w: World, a: Action, upload: Uuid)
    requires Inv(w) && Kempt(w) && Enabled(w, a) && Spent(w.db, upload)
    ensures Spent(Apply(w, a).db, upload)
  {
    StepKept(w, a);
    IntentsStep(w, a);
    var db, db' := w.db, Apply(w, a).db;
    hide Inv, Apply, Enabled;
    if !db.intents[upload].state.Expired? {
      var j :| QueuedFor(db, j, upload) && Decided(db, j);
      DecidedStays(db, db', j);
      assert QueuedFor(db', j, upload);
    }
  }

  lemma UploadStays(w: World, a: Action, upload: Uuid)
    requires Inv(w) && Kempt(w) && Enabled(w, a) && upload in w.db.intents && w.db.intents[upload].objectKey in w.objects
    ensures upload in Apply(w, a).db.intents && Apply(w, a).db.intents[upload].objectKey == w.db.intents[upload].objectKey
    ensures !Spent(w.db, upload) ==> w.db.intents[upload].objectKey in Apply(w, a).objects
  {
    StepKept(w, a);
    ObjectsOnlyGo(w, a);
    assert Fixed(w.db, Apply(w, a).db);
    InvParts(w);
    ListedIsSpent(w.db, upload);
    if a.DeleteObject? {
      TodoIsListed(w, a.run, a.key);
    }
    hide Inv, Apply, Spent, Linked, KeysDistinct, UploadsSpent, Listed;
  }

  lemma {:induction false} UploadsStay(w: World, steps: seq<Action>, w': World, upload: Uuid)
    requires Inv(w) && Kempt(w) && Path(w, steps, w') && upload in w.db.intents && w.db.intents[upload].objectKey in w.objects
    ensures !Spent(w'.db, upload) ==> !Spent(w.db, upload) && w.db.intents[upload].objectKey in w'.objects
    decreases |steps|
  {
    hide Inv, Evolves, Kempt, Spent;
    if steps != [] {
      var next := Apply(w, steps[0]);
      StepKept(w, steps[0]);
      StepKempt(w, steps[0]);
      UploadStays(w, steps[0], upload);
      if Spent(w.db, upload) {
        SpentForGood(w, steps[0], upload);
        SpentAlong(next, steps[1..], w', upload);
      } else {
        UploadsStay(next, steps[1..], w', upload);
      }
    }
  }

  lemma {:induction false} SpentAlong(w: World, steps: seq<Action>, w': World, upload: Uuid)
    requires Inv(w) && Kempt(w) && Path(w, steps, w') && Spent(w.db, upload)
    ensures Spent(w'.db, upload)
    decreases |steps|
  {
    hide Inv, Evolves, Kempt, Spent;
    if steps != [] {
      StepKept(w, steps[0]);
      StepKempt(w, steps[0]);
      SpentForGood(w, steps[0], upload);
      SpentAlong(Apply(w, steps[0]), steps[1..], w', upload);
    }
  }

  /** So a retry finds its input: a stored original stays stored along every run that ends with its story still processing. */
  lemma RetryFindsInput(w: World, steps: seq<Action>, w': World, job: Uuid)
    requires Reachable(w) && Path(w, steps, w') && job in w.db.jobs && w.db.jobs[job].inputKey in w.objects
    ensures job in w'.db.jobs && w'.db.jobs[job].inputStory in w'.db.stories
    ensures w'.db.stories[w'.db.jobs[job].inputStory].state.Processing? ==> w'.db.jobs[job].inputKey in w'.objects
  {
    PT.ReachableInv(w);
    ReachableKempt(w);
    PT.PathKept(w, steps, w');
    InvParts(w);
    InvParts(w');
    hide Inv, Path, Reachable, Kempt;
    assert Fixed(w.db, w'.db) && JobLinked(w.db, job) && JobLinked(w'.db, job);
    hide Evolves;
    var story := w'.db.jobs[job].inputStory;
    if w'.db.stories[story].state.Processing? {
      ProcessingIsUnspent(w'.db, story);
      hide Linked, Spent;
      UploadsStay(w, steps, w', w.db.jobs[job].intent);
    }
  }

  // ------------------------------------------------- deleted before publication

  /** A story deleted while processing leaves its original unlisted, and a failure recorded afterwards lists it. */
  lemma DeletedOriginals(lifetime: int)
    ensures var w := DeletedEarly(lifetime);
      && Reachable(w) && w.db.stories[1].state.Deleted? && OriginalOf(w.db, 1) == Some(KEY) && !Listed(w.db, KEY)
      && Enabled(w, FailMedia(0, false, 2)) && Listed(Apply(w, FailMedia(0, false, 2)).db, KEY)
  {
    DeletedWhileProcessing(lifetime);
    hide Reachable, Path, VariantKey, UuidText, Orphan;
    var w := DeletedEarly(lifetime);
    var w' := Apply(w, FailMedia(0, false, 2));
    assert w.media[0].job == 1;
    assert 2 in w'.db.cleanup && KEY in w'.db.cleanup[2].keys;
  }
}
