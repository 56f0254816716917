/** Which media objects cleanup can ever reach: exactly those a variant row of a gone story names. */
module OrphanedMedia {
  import opened Options
  import opened ObjectKeys
  import opened Tables
  import opened PipelineInvariant
  import opened PipelineSteps
  import opened PipelineSafety
  import opened Protocol
  import PT = PipelineTheorems
  import opened ShortRun
  import T = Transactions

  /** Every media key among `keys` is in a variant row of its story. */
  ghost predicate Named(db: Db, keys: set<string>) {
    forall key: string, s: Uuid :: key in keys && StoryKey(s, key) ==> key in VariantKeys(db.variants, s)
  }

  ghost predicate PayloadsNamed(db: Db) {
    forall c :: c in db.cleanup ==> Named(db, db.cleanup[c].keys)
  }

  // ------------------------------------------------------------------ payloads

  /** A set of upload keys, or of anything but media keys, names nothing it should not. */
  lemma UploadNamed(db: Db, keys: set<string>)
    requires forall key :: key in keys ==> UploadKey(key) || key == ""
    ensures Named(db, keys)
  {
    forall key: string, s: Uuid | key in keys
      ensures !StoryKey(s, key)
    {
      if StoryKey(s, key) {
        KeySpacesDisjoint(s, key);
      }
    }
  }

  lemma OwnNamed(db: Db, story: Uuid)
    requires VariantsOwned(db)
    ensures Named(db, VariantKeys(db.variants, story))
  {
    forall key: string, s: Uuid | key in VariantKeys(db.variants, story) && StoryKey(s, key)
      ensures s == story
    {
      var kind: VariantKind :| (story, kind) in db.variants && db.variants[(story, kind)] == key;
      assert StoryKey(story, key);
      KeySpacesDisjoint(story, key);
    }
  }

  /** Rows of such stories do not change, so what old payloads name stays named. */
  lemma NamedStays(db: Db, db': Db, keys: set<string>)
    requires Named(db, keys) && PayloadSafe(db, keys)
    requires forall s :: s in db.stories && !db.stories[s].state.Processing? ==> VariantKeys(db'.variants, s) == VariantKeys(db.variants, s)
    ensures Named(db', keys)
  {
    hide VariantKeys, StoryKey;
  }

  /** What is new in `db'` names what it should, and rows of stories no longer processing are as they were. */
  ghost predicate NewNamed(db: Db, db': Db) {
    && (forall s :: s in db.stories && !db.stories[s].state.Processing? ==> VariantKeys(db'.variants, s) == VariantKeys(db.variants, s))
    && (forall c :: c in db'.cleanup && c !in db.cleanup ==> Named(db', db'.cleanup[c].keys))
  }

  lemma PayloadsFrom(db: Db, db': Db)
    requires PayloadsNamed(db) && PayloadsSafe(db) && Fixed(db, db') && NewNamed(db, db')
    ensures PayloadsNamed(db')
  {
    hide Named, VariantKeys, PayloadSafe;
    forall c | c in db'.cleanup
      ensures Named(db', db'.cleanup[c].keys)
    {
      if c in db.cleanup {
        NamedStays(db, db', db.cleanup[c].keys);
      }
    }
  }

  // --------------------------------------------------------------------- steps

  predicate Schedules(a: Action) {
    a.Publish? || a.FailMedia? || a.Delete? || a.Expire? || a.CollectUploads?
  }

  /** The tables' cleanup jobs and variants are as they were. */
  ghost predicate Untouched(db: Db, db': Db) {
    db'.variants == db.variants && db'.cleanup.Keys == db.cleanup.Keys
  }

  lemma UploadsScheduleNothing(w: World, a: Action)
    requires Enabled(w, a) && (a.Tick? || a.CreateIntent? || a.ClientPut? || a.Finalize? || a.ClaimMedia? || a.PutVariant? || a.DropMedia?)
    ensures Untouched(w.db, Apply(w, a).db)
  {
  }

  lemma ReadersScheduleNothing(w: World, a: Action)
    requires Enabled(w, a) && (a.Update? || a.PurgeViews? || a.Resolve? || a.RecordView? || a.AcknowledgeView?)
    ensures Untouched(w.db, Apply(w, a).db)
  {
  }

  lemma CleanersScheduleNothing(w: World, a: Action)
    requires Enabled(w, a)
    requires a.ClaimCleanup? || a.DeleteObject? || a.CompleteCleanup? || a.FailCleanup? || a.DropCleanup? || a.Reap?
    requires Fixed(w.db, Apply(w, a).db)
    ensures Untouched(w.db, Apply(w, a).db)
  {
  }

  lemma OthersScheduleNothing(w: World, a: Action)
    requires Enabled(w, a) && !Schedules(a) && Fixed(w.db, Apply(w, a).db)
    ensures Untouched(w.db, Apply(w, a).db)
  {
    hide Enabled, Apply, Untouched, Fixed;
    if a.Update? || a.PurgeViews? || a.Resolve? || a.RecordView? || a.AcknowledgeView? {
      ReadersScheduleNothing(w, a);
    } else if a.ClaimCleanup? || a.DeleteObject? || a.CompleteCleanup? || a.FailCleanup? || a.DropCleanup? || a.Reap? {
      CleanersScheduleNothing(w, a);
    } else {
      UploadsScheduleNothing(w, a);
    }
  }

  lemma OriginalNamed(db: Db, db': Db, key: string, cleanupId: Uuid)
    requires UploadKey(key) && forall c :: c in db'.cleanup && c !in db.cleanup ==> c == cleanupId && db'.cleanup[c].keys == {key}
    requires forall s :: s in db.stories && !db.stories[s].state.Processing? ==> VariantKeys(db'.variants, s) == VariantKeys(db.variants, s)
    ensures NewNamed(db, db')
  {
    UploadNamed(db', {key});
    hide Named, VariantKeys;
  }

  lemma PublicationNames(db: Db, now: int, story: Uuid, vs: seq<Variant>, lifetime: int, key: string, cleanupId: Uuid)
    requires story in db.stories && db.stories[story].job in db.jobs && db.stories[story].state.Processing? && UploadKey(key)
    ensures NewNamed(db, Publication(db, now, story, vs, lifetime, key, cleanupId))
  {
    var db' := Publication(db, now, story, vs, lifetime, key, cleanupId);
    forall s | s in db.stories && !db.stories[s].state.Processing?
      ensures VariantKeys(db'.variants, s) == VariantKeys(db.variants, s)
    {
      OthersKeepVariants(db.variants, story, vs, s);
    }
    hide VariantKeys;
    OriginalNamed(db, db', key, cleanupId);
  }

  lemma SameNames(db: Db)
    ensures NewNamed(db, db)
  {
  }

  lemma PublishNames(db: Db, now: int, lifetime: int, job: Uuid, story: Uuid, vs: seq<Variant>, cleanupId: Uuid)
    requires Linked(db) && Lifecycle(db, now, lifetime) && job in db.jobs && db.jobs[job].inputStory == story
    ensures NewNamed(db, OrElse(T.PublishStory(db, now, job, story, vs, lifetime, cleanupId), db))
  {
    hide NewNamed, Publication;
    SameNames(db);
    JobFindsUpload(db, job);
    JobFacts(db, now, lifetime, job);
    var key := OriginalOf(db, job).value;
    hide Linked, Lifecycle, OriginalOf, UploadKey;
    if db.stories[story].state.Processing? {
      PublicationIsPublish(db, now, job, story, vs, lifetime, key, cleanupId);
      PublicationNames(db, now, story, vs, lifetime, key, cleanupId);
    }
  }

  lemma GiveUpNames(db: Db, now: int, job: Uuid, key: string, cleanupId: Uuid)
    requires job in db.jobs && UploadKey(key)
    ensures NewNamed(db, GiveUp(db, now, job, key, cleanupId))
  {
    hide VariantKeys;
    OriginalNamed(db, GiveUp(db, now, job, key, cleanupId), key, cleanupId);
  }

  lemma RetryNames(db: Db, now: int, job: Uuid)
    requires job in db.jobs
    ensures NewNamed(db, Retry(db, now, job))
  {
    hide VariantKeys, Backoff;
  }

  lemma FailureNames(db: Db, now: int, job: Uuid, story: Uuid, retryable: bool, cleanupId: Uuid)
    requires Linked(db) && job in db.jobs && db.jobs[job].inputStory == story
    ensures NewNamed(db, OrElse(T.FailMediaJob(db, now, job, story, retryable, cleanupId), db))
  {
    JobFindsUpload(db, job);
    hide NewNamed, Linked, OriginalOf, UploadKey, Backoff, T.FailMediaJob, Retry, GiveUp;
    var key := OriginalOf(db, job).value;
    if retryable && db.jobs[job].attempts < db.jobs[job].maxAttempts {
      RetryNames(db, now, job);
      RetryIsFail(db, now, job, story, retryable, cleanupId);
    } else {
      GiveUpIsFail(db, now, job, retryable, key, cleanupId);
      GiveUpNames(db, now, job, key, cleanupId);
    }
  }

  lemma RetryIsFail(db: Db, now: int, job: Uuid, story: Uuid, retryable: bool, cleanupId: Uuid)
    requires job in db.jobs && retryable && db.jobs[job].attempts < db.jobs[job].maxAttempts
    ensures T.FailMediaJob(db, now, job, story, retryable, cleanupId) == Some(Retry(db, now, job))
  {
    hide Backoff;
  }

  lemma FailNames(w: World, run: nat, retryable: bool, cleanupId: Uuid)
    requires Inv(w) && run in w.media && cleanupId !in w.db.cleanup
    ensures NewNamed(w.db, Apply(w, FailMedia(run, retryable, cleanupId)).db)
  {
    var m := w.media[run];
    assert RunBacked(w, m);
    InvParts(w);
    hide Inv, NewNamed, T.FailMediaJob, OrElse, Linked;
    FailureNames(w.db, w.now, m.job, m.story, retryable, cleanupId);
  }

  lemma DeleteNames(w: World, a: Action)
    requires VariantsOwned(w.db) && Enabled(w, a) && a.Delete?
    ensures NewNamed(w.db, Apply(w, a).db)
  {
    OwnNamed(w.db, a.story);
    hide VariantKeys;
  }

  lemma ExpiryNamed(db: Db, db': Db, story: Uuid)
    requires VariantsOwned(db) && db'.variants == db.variants
    ensures Named(db', T.ExpiryKeys(db.variants, story))
  {
    OwnNamed(db, story);
    UploadNamed(db, {""});
    hide VariantKeys;
  }

  lemma ExpireNames(db: Db, now: int, batch: map<Uuid, Uuid>)
    requires VariantsOwned(db)
    ensures NewNamed(db, T.ExpireStories(db, now, batch))
  {
    hide Named, VariantKeys, VariantsOwned, T.ExpiryKeys;
    var db' := T.ExpireStories(db, now, batch);
    forall c | c in db'.cleanup && c !in db.cleanup
      ensures Named(db', db'.cleanup[c].keys)
    {
      ExpiryNamed(db, db', batch[c]);
    }
  }

  lemma CollectNames(db: Db, now: int, due: set<Uuid>, cleanupId: Uuid)
    requires Linked(db)
    ensures NewNamed(db, T.GCAbandonedUploads(db, now, due, cleanupId))
  {
    var db' := T.GCAbandonedUploads(db, now, due, cleanupId);
    if due != {} {
      var keys := db'.cleanup[cleanupId].keys;
      forall key | key in keys
        ensures UploadKey(key)
      {
        var i :| i in due && i in db.intents && db.intents[i].objectKey == key;
        assert IntentLinked(db, i);
      }
      UploadNamed(db', keys);
    }
    hide Named, VariantKeys, Linked;
  }

  /** No step of anyone lists a media key that no variant row names. */
  lemma StepNames(w: World, a: Action)
    requires Inv(w) && PayloadsNamed(w.db) && Enabled(w, a)
    ensures PayloadsNamed(Apply(w, a).db) && NewNamed(w.db, Apply(w, a).db)
  {
    StepKept(w, a);
    InvParts(w);
    if a.Publish? {
      assert RunBacked(w, w.media[a.run]);
    }
    hide Inv, NewNamed, PayloadsNamed, PayloadsSafe, Linked, VariantsOwned, Fixed;
    assert Fixed(w.db, Apply(w, a).db);
    if a.Publish? {
      var m := w.media[a.run];
      hide T.PublishStory, RunBacked, Lifecycle;
      PublishNames(w.db, w.now, w.lifetime, m.job, m.story, m.puts, a.cleanupId);
    } else if a.FailMedia? {
      FailNames(w, a.run, a.retryable, a.cleanupId);
    } else if a.Delete? {
      DeleteNames(w, a);
    } else if a.Expire? {
      ExpireNames(w.db, w.now, a.batch);
    } else if a.CollectUploads? {
      CollectNames(w.db, w.now, a.due, a.cleanupId);
    } else {
      OthersScheduleNothing(w, a);
      UntouchedNames(w.db, Apply(w, a).db);
    }
    hide Apply, Enabled;
    PayloadsFrom(w.db, Apply(w, a).db);
  }

  lemma InvParts(w: World)
    requires Inv(w)
    ensures PayloadsSafe(w.db) && Linked(w.db) && VariantsOwned(w.db) && Lifecycle(w.db, w.now, w.lifetime)
  {
  }

  lemma UntouchedNames(db: Db, db': Db)
    requires Untouched(db, db')
    ensures NewNamed(db, db')
  {
    hide VariantKeys, Named;
  }

  lemma {:induction false} PathNames(w: World, steps: seq<Action>, w': World)
    requires Inv(w) && PayloadsNamed(w.db) && Path(w, steps, w')
    ensures PayloadsNamed(w'.db)
    decreases |steps|
  {
    hide Inv, Evolves, PayloadsNamed;
    if steps != [] {
      StepKept(w, steps[0]);
      StepNames(w, steps[0]);
      PathNames(Apply(w, steps[0]), steps[1..], w');
    }
  }

  lemma ReachableNames(w: World)
    requires Reachable(w)
    ensures PayloadsNamed(w.db)
  {
    hide Inv;
    var w0: World, steps: seq<Action> :| Initial(w0) && Path(w0, steps, w);
    InitialInv(w0);
    PathNames(w0, steps, w);
  }

  // ------------------------------------------------------------------ theorems

  ghost predicate Listed(db: Db, key: string) {
    exists c :: c in db.cleanup && key in db.cleanup[c].keys
  }

  /**
   * In every reachable state some delete_objects job lists a media key exactly if its story is gone and one of
   * the story's variant rows names the key. So nothing ever lists the keys of a story that was deleted while
   * still processing.
   */
  lemma ListedExactly(w: World, story: Uuid, key: string)
    requires Reachable(w) && StoryKey(story, key)
    ensures Listed(w.db, key) <==>
      story in w.db.stories && w.db.stories[story].state.Gone() && key in VariantKeys(w.db.variants, story)
    ensures story in w.db.stories && w.db.stories[story].publishedAt.None? ==> !Listed(w.db, key)
  {
    PT.ReachableInv(w);
    ReachableNames(w);
    ListedIff(w.db, w.now, w.lifetime, story, key);
  }

  lemma ListedIff(db: Db, now: int, lifetime: int, story: Uuid, key: string)
    requires DbInv(db, now, lifetime) && PayloadsNamed(db) && StoryKey(story, key)
    ensures Listed(db, key) <==> story in db.stories && db.stories[story].state.Gone() && key in VariantKeys(db.variants, story)
    ensures story in db.stories && db.stories[story].publishedAt.None? ==> key !in VariantKeys(db.variants, story)
  {
    hide Linked, Lifecycle, ViewsDated, StoryKey;
    if Listed(db, key) {
      var c :| c in db.cleanup && key in db.cleanup[c].keys;
      assert PayloadSafe(db, db.cleanup[c].keys) && Named(db, db.cleanup[c].keys);
    }
    if story in db.stories && db.stories[story].state.Gone() && key in VariantKeys(db.variants, story) {
      assert StoryAccounted(db, story);
      assert Scheduled(db, VariantKeys(db.variants, story));
    }
  }

  /** A stored output of a story that is no longer processing, and that no variant row names. */
  ghost predicate Orphan(w: World, story: Uuid, key: string) {
    && story in w.db.stories && !w.db.stories[story].state.Processing?
    && StoryKey(story, key) && key !in VariantKeys(w.db.variants, story)
    && key in w.objects
  }

  lemma ObjectsOnlyGo(w: World, a: Action)
    requires Enabled(w, a)
    ensures a.DeleteObject? || w.objects <= Apply(w, a).objects
    ensures a.DeleteObject? ==> Apply(w, a).objects == w.objects - {a.key}
  {
    hide T.PublishStory, T.FailMediaJob, T.ExpireStories;
  }

  lemma OrphanUntouched(w: World, run: nat, key: string, story: Uuid, gone: string)
    requires Inv(w) && PayloadsNamed(w.db) && Orphan(w, story, key) && run in w.cleaners && gone in w.cleaners[run].todo
    ensures gone != key
  {
    assert CleanerBounded(w, w.cleaners[run]);
    assert Named(w.db, w.db.cleanup[w.cleaners[run].job].keys);
    hide DbInv, VariantKeys, StoryKey;
  }

  lemma OrphanStays(w: World, a: Action, story: Uuid, key: string)
    requires Inv(w) && PayloadsNamed(w.db) && Enabled(w, a) && Orphan(w, story, key)
    ensures Orphan(Apply(w, a), story, key)
  {
    StepKept(w, a);
    StepNames(w, a);
    ObjectsOnlyGo(w, a);
    if a.DeleteObject? {
      OrphanUntouched(w, a.run, key, story, a.key);
    }
    PT.StoryEvolved(w.db, Apply(w, a).db, story);
    hide Inv, Apply, Enabled, PayloadsNamed, VariantKeys, Named, StoryKey;
  }

  /**
   * The bytes a retried, abandoned or overtaken attempt leaves behind are never deleted: once a story is no longer
   * processing, an output of it that none of its variant rows names stays stored along every run.
   */
  lemma {:induction false} OrphansStay(w: World, steps: seq<Action>, w': World, story: Uuid, key: string)
    requires Inv(w) && PayloadsNamed(w.db) && Path(w, steps, w') && Orphan(w, story, key)
    ensures Orphan(w', story, key)
    decreases |steps|
  {
    hide Inv, Evolves, PayloadsNamed, Orphan;
    if steps != [] {
      StepKept(w, steps[0]);
      StepNames(w, steps[0]);
      OrphanStays(w, steps[0], story, key);
      OrphansStay(Apply(w, steps[0]), steps[1..], w', story, key);
    }
  }

  lemma OrphansAreForever(w: World, steps: seq<Action>, w': World, story: Uuid, key: string)
    requires Reachable(w) && Path(w, steps, w') && Orphan(w, story, key)
    ensures key in w'.objects && !Listed(w'.db, key)
  {
    hide Inv, PayloadsNamed, DbInv;
    PT.ReachableInv(w);
    ReachableNames(w);
    OrphansStay(w, steps, w', story, key);
    PT.PathKept(w, steps, w');
    PathNames(w, steps, w');
    InvTables(w');
    ListedIff(w'.db, w'.now, w'.lifetime, story, key);
  }

  lemma InvTables(w: World)
    requires Inv(w)
    ensures DbInv(w.db, w.now, w.lifetime)
  {
  }

  // ----------------------------------------------- deleted while processing

  /** A worker has stored one output of a story, and then the author deletes it. */
  function DeletedEarly(lifetime: int): World {
    var w := Uploaded(lifetime);
    w.(db := w.db.(stories := map[1 := w.db.stories[1].(state := Deleted)], cleanup := map[1 := NewCleanup({}, 0)]))
  }

  lemma Deleting(lifetime: int)
    ensures Enabled(Uploaded(lifetime), Delete(1, 1, false, 1))
    ensures Apply(Uploaded(lifetime), Delete(1, 1, false, 1)) == DeletedEarly(lifetime)
  {
    hide VariantKey, UuidText;
    var w, w' := Uploaded(lifetime), Apply(Uploaded(lifetime), Delete(1, 1, false, 1));
    assert VariantKeys(w.db.variants, 1) == {};
    assert w'.db.stories == DeletedEarly(lifetime).db.stories;
    assert w'.db.cleanup == DeletedEarly(lifetime).db.cleanup;
  }

  /** Such a story is reachable, and its output is an orphan: stored, named by no row and listed by no job, forever. */
  lemma DeletedWhileProcessing(lifetime: int)
    ensures var w := DeletedEarly(lifetime);
      && Reachable(w) && w.db.stories[1].state.Deleted? && w.db.stories[1].publishedAt.None?
      && Orphan(w, 1, Output())
      && forall steps, w' :: Path(w, steps, w') ==> Output() in w'.objects && !Listed(w'.db, Output())
  {
    var w := DeletedEarly(lifetime);
    UploadedIsReachable(lifetime);
    Deleting(lifetime);
    ReachableStep(Uploaded(lifetime), Delete(1, 1, false, 1));
    assert StoryKey(1, Output());
    assert Orphan(w, 1, Output());
    hide Reachable, Path, DeletedEarly, Orphan, Output, Listed;
    forall steps, w' | Path(w, steps, w')
      ensures Output() in w'.objects && !Listed(w'.db, Output())
    {
      OrphansAreForever(w, steps, w', 1, Output());
    }
  }
}
