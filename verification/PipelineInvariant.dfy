/** What every table transaction keeps. */
module PipelineInvariant {
  import opened Options
  import opened ObjectKeys
  import opened Tables
  import T = Transactions

  ghost predicate JobLinked(db: Db, j: Uuid)
    requires j in db.jobs
  {
    var job := db.jobs[j];
    && job.intent in db.intents && db.intents[job.intent].state.Finalized?
    && job.inputKey == db.intents[job.intent].objectKey
    && job.inputStory in db.stories && db.stories[job.inputStory].job == j
  }

  ghost predicate StoryLinked(db: Db, s: Uuid)
    requires s in db.stories
  {
    db.stories[s].job in db.jobs && db.jobs[db.stories[s].job].inputStory == s
  }

  ghost predicate QueuedFor(db: Db, j: Uuid, upload: Uuid) {
    j in db.jobs && db.jobs[j].intent == upload
  }

  ghost predicate IntentLinked(db: Db, i: Uuid)
    requires i in db.intents
  {
    && UploadKey(db.intents[i].objectKey)
    && (db.intents[i].state.Finalized? ==> exists j :: QueuedFor(db, j, i))
  }

  /** Intents, jobs and stories refer to each other one to one, and the frozen input is the upload's. */
  ghost predicate Linked(db: Db) {
    && (forall i :: i in db.intents ==> IntentLinked(db, i))
    && (forall j :: j in db.jobs ==> JobLinked(db, j))
    && (forall s :: s in db.stories ==> StoryLinked(db, s))
    && (forall j, k, i :: QueuedFor(db, j, i) && QueuedFor(db, k, i) ==> j == k)
  }

  ghost predicate Dated(s: Story, now: int, lifetime: int) {
    && (s.state.Processing? || s.state.Failed? ==> s.publishedAt.None?)
    && (s.state.Published? ==> s.publishedAt.Some?)
    && (s.publishedAt.None? ==> s.expiresAt.None?)
    && (s.publishedAt.Some? ==> s.publishedAt.value <= now && s.expiresAt == Some(s.publishedAt.value + lifetime))
  }

  ghost predicate Lifecycle(db: Db, now: int, lifetime: int) {
    forall s :: s in db.stories ==> Dated(db.stories[s], now, lifetime)
  }

  ghost predicate VariantsOwned(db: Db) {
    forall v :: v in db.variants ==>
      v.0 in db.stories && db.stories[v.0].publishedAt.Some? && StoryKey(v.0, db.variants[v])
  }

  /** A media key is only ever scheduled for deletion once its story is gone for good. */
  ghost predicate PayloadSafe(db: Db, keys: set<string>) {
    forall key: string, s: Uuid :: key in keys && StoryKey(s, key) ==>
      s in db.stories && db.stories[s].state.Gone()
  }

  ghost predicate PayloadsSafe(db: Db) {
    forall c :: c in db.cleanup ==> PayloadSafe(db, db.cleanup[c].keys)
  }

  /** Some delete_objects job carries all of `keys`. */
  ghost predicate Scheduled(db: Db, keys: set<string>) {
    exists c :: c in db.cleanup && keys <= db.cleanup[c].keys
  }

  ghost predicate OriginalScheduled(db: Db, job: Uuid) {
    OriginalOf(db, job).Some? && Scheduled(db, {OriginalOf(db, job).value})
  }

  /** Whatever bytes this story no longer needs are on some cleanup job's list. */
  ghost predicate StoryAccounted(db: Db, s: Uuid)
    requires s in db.stories
  {
    var story := db.stories[s];
    && (story.publishedAt.Some? || story.state.Failed? ==> OriginalScheduled(db, story.job))
    && (story.publishedAt.Some? && story.state.Gone() ==> Scheduled(db, VariantKeys(db.variants, s)))
  }

  ghost predicate IntentAccounted(db: Db, i: Uuid)
    requires i in db.intents
  {
    db.intents[i].state.Expired? ==> Scheduled(db, {db.intents[i].objectKey})
  }

  ghost predicate NothingLost(db: Db) {
    && (forall s :: s in db.stories ==> StoryAccounted(db, s))
    && (forall i :: i in db.intents ==> IntentAccounted(db, i))
  }

  /** Only a story that has been published is ever viewed, and never before its publication. */
  ghost predicate ViewDated(db: Db, v: (Uuid, Uuid), at: int) {
    v.0 in db.stories && db.stories[v.0].publishedAt.Some? && db.stories[v.0].publishedAt.value <= at
  }

  ghost predicate ViewsDated(db: Db) {
    forall v :: v in db.views ==> ViewDated(db, v, db.views[v].deliveredAt)
  }

  ghost predicate DbInv(db: Db, now: int, lifetime: int) {
    && Linked(db) && Lifecycle(db, now, lifetime) && VariantsOwned(db)
    && PayloadsSafe(db) && NothingLost(db) && ViewsDated(db)
  }

  // ------------------------------------------------- what the rows may become

  predicate StateStep(from: StoryState, to: StoryState) {
    match from
    case Processing => true
    case Published => to.Published? || to.Gone()
    case _ => to == from
  }

  /** The only edges of the story life cycle, with both dates written once. */
  predicate StoryStep(s: Story, s': Story) {
    && s'.author == s.author && s'.job == s.job
    && StateStep(s.state, s'.state)
    && (s.publishedAt.Some? ==> s'.publishedAt == s.publishedAt && s'.expiresAt == s.expiresAt)
    && (s.publishedAt.None? && s'.publishedAt.Some? ==> s.state.Processing? && (s'.state.Published? || s'.state.Gone()))
  }

  ghost predicate StoriesEvolve(db: Db, db': Db) {
    forall s :: s in db.stories ==> s in db'.stories && StoryStep(db.stories[s], db'.stories[s])
  }

  /** Columns nothing ever rewrites: object keys, frozen inputs and delete payloads. */
  ghost predicate Fixed(db: Db, db': Db) {
    && (forall i :: i in db.intents ==>
         i in db'.intents && db'.intents[i].objectKey == db.intents[i].objectKey && db'.intents[i].user == db.intents[i].user)
    && (forall j :: j in db.jobs ==>
         && j in db'.jobs && db'.jobs[j].intent == db.jobs[j].intent
         && db'.jobs[j].inputStory == db.jobs[j].inputStory && db'.jobs[j].inputKey == db.jobs[j].inputKey)
    && (forall c :: c in db.cleanup ==> c in db'.cleanup && db'.cleanup[c].keys == db.cleanup[c].keys)
  }

  ghost predicate Evolves(db: Db, db': Db) {
    StoriesEvolve(db, db') && Fixed(db, db')
  }

  // --------------------------------------------------------------- frame facts

  lemma ScheduledGrows(db: Db, db': Db, keys: set<string>)
    requires Fixed(db, db') && Scheduled(db, keys)
    ensures Scheduled(db', keys)
  {
    var c :| c in db.cleanup && keys <= db.cleanup[c].keys;
    assert c in db'.cleanup && keys <= db'.cleanup[c].keys;
  }

  lemma OriginalGrows(db: Db, db': Db, job: Uuid)
    requires Fixed(db, db') && OriginalScheduled(db, job)
    ensures OriginalScheduled(db', job)
  {
    ScheduledGrows(db, db', {OriginalOf(db, job).value});
  }

  /** Accounting survives whatever does not publish, fail or retire the story itself. */
  lemma StillAccounted(db: Db, db': Db, s: Uuid)
    requires Fixed(db, db') && s in db.stories && s in db'.stories && StoryAccounted(db, s)
    requires db'.stories[s].(audience := db.stories[s].audience) == db.stories[s]
    requires VariantKeys(db'.variants, s) == VariantKeys(db.variants, s)
    ensures StoryAccounted(db', s)
  {
    var story := db.stories[s];
    if story.publishedAt.Some? || story.state.Failed? {
      OriginalGrows(db, db', story.job);
    }
    if story.publishedAt.Some? && story.state.Gone() {
      ScheduledGrows(db, db', VariantKeys(db.variants, s));
    }
  }

  lemma IntentsStillAccounted(db: Db, db': Db)
    requires Fixed(db, db') && NothingLost(db)
    requires forall i :: i in db'.intents && db'.intents[i].state.Expired? ==> i in db.intents && db.intents[i].state.Expired?
    ensures forall i :: i in db'.intents ==> IntentAccounted(db', i)
  {
    forall i | i in db'.intents ensures IntentAccounted(db', i) {
      if db'.intents[i].state.Expired? {
        assert IntentAccounted(db, i);
        ScheduledGrows(db, db', {db.intents[i].objectKey});
      }
    }
  }

  /** Links only read columns that most transactions leave alone. */
  lemma LinkedFrame(db: Db, db': Db)
    requires Linked(db) && Fixed(db, db')
    requires db'.intents == db.intents && db'.jobs.Keys == db.jobs.Keys && db'.stories.Keys == db.stories.Keys
    requires forall s :: s in db.stories ==> db'.stories[s].job == db.stories[s].job
    ensures Linked(db')
  {
    forall j, i ensures QueuedFor(db', j, i) == QueuedFor(db, j, i) {}
    forall j | j in db'.jobs ensures JobLinked(db', j) { assert JobLinked(db, j); }
    forall s | s in db'.stories ensures StoryLinked(db', s) { assert StoryLinked(db, s); }
    forall i | i in db'.intents ensures IntentLinked(db', i) {
      assert IntentLinked(db, i);
      if db.intents[i].state.Finalized? {
        var j :| QueuedFor(db, j, i);
        assert QueuedFor(db', j, i);
      }
    }
  }

  lemma PayloadGrows(db: Db, db': Db, keys: set<string>)
    requires StoriesEvolve(db, db') && PayloadSafe(db, keys)
    ensures PayloadSafe(db', keys)
  {
  }

  lemma PayloadsFrame(db: Db, db': Db)
    requires StoriesEvolve(db, db') && PayloadsSafe(db)
    requires forall c :: c in db'.cleanup ==>
               (c in db.cleanup && db'.cleanup[c].keys == db.cleanup[c].keys) || PayloadSafe(db', db'.cleanup[c].keys)
    ensures PayloadsSafe(db')
  {
    forall c | c in db'.cleanup ensures PayloadSafe(db', db'.cleanup[c].keys) {
      if c in db.cleanup && db'.cleanup[c].keys == db.cleanup[c].keys {
        PayloadGrows(db, db', db.cleanup[c].keys);
      }
    }
  }

  lemma VariantsFrame(db: Db, db': Db)
    requires StoriesEvolve(db, db') && VariantsOwned(db) && db'.variants == db.variants
    ensures VariantsOwned(db')
  {
  }

  /** An upload key is nobody's media key, so scheduling it is always safe. */
  lemma UploadPayloadSafe(db: Db, keys: set<string>)
    requires forall key :: key in keys ==> UploadKey(key) || key == ""
    ensures PayloadSafe(db, keys)
  {
    forall key: string, s: Uuid | key in keys ensures !StoryKey(s, key) {
      if StoryKey(s, key) {
        KeySpacesDisjoint(s, key);
      }
    }
  }

  /** A gone story's own variants are safe to schedule. */
  lemma VariantPayloadSafe(db: Db, story: Uuid)
    requires VariantsOwned(db) && story in db.stories && db.stories[story].state.Gone()
    ensures PayloadSafe(db, VariantKeys(db.variants, story))
  {
    forall key: string, s: Uuid | key in VariantKeys(db.variants, story) && StoryKey(s, key)
      ensures s in db.stories && db.stories[s].state.Gone()
    {
      var kind: VariantKind :| (story, kind) in db.variants && db.variants[(story, kind)] == key;
      assert StoryKey(story, key);
      KeySpacesDisjoint(story, key);
    }
  }

  lemma NewRowSchedules(db: Db, cleanupId: Uuid, keys: set<string>)
    requires cleanupId in db.cleanup && keys <= db.cleanup[cleanupId].keys
    ensures Scheduled(db, keys)
  {
  }
}
