/** The promises of the story pipeline, over every run. */
module PipelineTheorems {
  import opened Options
  import opened ObjectKeys
  import opened Tables
  import opened PipelineInvariant
  import opened Protocol
  import opened PipelineSafety
  import T = Transactions

  lemma EvolvesTransitive(a: Db, b: Db, c: Db)
    requires Evolves(a, b) && Evolves(b, c)
    ensures Evolves(a, c)
  {
  }

  lemma KeptTransitive(a: World, b: World, c: World)
    requires Kept(a, b) && Kept(b, c)
    ensures Kept(a, c)
  {
    hide Inv, Evolves;
    EvolvesTransitive(a.db, b.db, c.db);
  }

  /** Any schedule of any participants keeps the invariant and only moves rows along their edges. */
  lemma {:induction false} PathKept(w: World, steps: seq<Action>, w': World)
    requires Inv(w) && Path(w, steps, w')
    ensures Kept(w, w')
    decreases |steps|
  {
    hide Inv, Evolves;
    if steps == [] {
      KeptItself(w);
    } else {
      var next := Apply(w, steps[0]);
      StepKept(w, steps[0]);
      PathKept(next, steps[1..], w');
      KeptTransitive(w, next, w');
    }
  }

  lemma ReachableInv(w: World)
    requires Reachable(w)
    ensures Inv(w)
  {
    hide Inv, Evolves;
    var w0: World, steps: seq<Action> :| Initial(w0) && Path(w0, steps, w);
    InitialInv(w0);
    PathKept(w0, steps, w);
  }

  // ------------------------------------------------------------------ media

  /** Every variant row of a published story names a stored object that no delete_objects job lists. */
  lemma PublishedMediaIsServed(w: World, story: Uuid, kind: VariantKind)
    requires Reachable(w)
    requires story in w.db.stories && w.db.stories[story].state.Published?
    requires (story, kind) in w.db.variants
    ensures w.db.variants[(story, kind)] in w.objects
    ensures forall c :: c in w.db.cleanup ==> w.db.variants[(story, kind)] !in w.db.cleanup[c].keys
    ensures forall r :: r in w.cleaners ==> w.db.variants[(story, kind)] !in w.cleaners[r].todo
  {
    ReachableInv(w);
    var key := w.db.variants[(story, kind)];
    assert VariantStored(w, (story, kind)) && StoryKey(story, key);
    forall c | c in w.db.cleanup ensures key !in w.db.cleanup[c].keys {
      assert PayloadSafe(w.db, w.db.cleanup[c].keys);
    }
    forall r | r in w.cleaners ensures key !in w.cleaners[r].todo {
      assert CleanerBounded(w, w.cleaners[r]);
    }
  }

  /** No two stories ever share a media object, and no upload is ever taken for one. */
  lemma MediaObjectsUnshared(w: World, v: (Uuid, VariantKind), u: (Uuid, VariantKind))
    requires Reachable(w) && v in w.db.variants && u in w.db.variants
    ensures w.db.variants[v] == w.db.variants[u] ==> v.0 == u.0
    ensures forall i :: i in w.db.intents ==> w.db.intents[i].objectKey != w.db.variants[v]
  {
    ReachableInv(w);
    KeySpacesDisjoint(v.0, w.db.variants[v]);
    KeySpacesDisjoint(u.0, w.db.variants[u]);
    forall i | i in w.db.intents ensures w.db.intents[i].objectKey != w.db.variants[v] {
      assert IntentLinked(w.db, i);
    }
  }

  // -------------------------------------------------------------- life cycle

  /** How often `story` enters the published state along a run. */
  ghost function Publications(w: World, steps: seq<Action>, w': World, story: Uuid): nat
    requires Path(w, steps, w')
    decreases |steps|
  {
    if steps == [] then 0
    else
      var next := Apply(w, steps[0]);
      (if IsPublished(next, story) && !IsPublished(w, story) then 1 else 0) + Publications(next, steps[1..], w', story)
  }

  ghost predicate IsPublished(w: World, story: Uuid) {
    story in w.db.stories && w.db.stories[story].state.Published?
  }

  /** Nothing returns a story that has been published, or has ended, to the published state. */
  lemma {:induction false} NeverRepublished(w: World, steps: seq<Action>, w': World, story: Uuid)
    requires Inv(w) && Path(w, steps, w')
    requires story in w.db.stories && !w.db.stories[story].state.Processing?
    ensures Publications(w, steps, w', story) == 0
    decreases |steps|
  {
    hide Inv, DbInv, Fixed;
    if steps != [] {
      StepKept(w, steps[0]);
      NeverRepublished(Apply(w, steps[0]), steps[1..], w', story);
    }
  }

  /** Workers that lost their lease, retries and crashes included: one publication at most. */
  lemma {:induction false} PublishedAtMostOnce(w: World, steps: seq<Action>, w': World, story: Uuid)
    requires Inv(w) && Path(w, steps, w')
    ensures Publications(w, steps, w', story) <= 1
    decreases |steps|
  {
    hide Inv, DbInv, Evolves;
    if steps != [] {
      var next := Apply(w, steps[0]);
      StepKept(w, steps[0]);
      if IsPublished(next, story) && !IsPublished(w, story) {
        NeverRepublished(next, steps[1..], w', story);
      } else {
        PublishedAtMostOnce(next, steps[1..], w', story);
      }
    }
  }

  /** Between any two moments of a run a story moves forward only, and its two dates are written once. */
  lemma StoryHistory(w: World, steps: seq<Action>, w': World, story: Uuid)
    requires Reachable(w) && Path(w, steps, w') && story in w.db.stories
    ensures story in w'.db.stories
    ensures var s, s' := w.db.stories[story], w'.db.stories[story];
      && (s'.state.Processing? ==> s.state.Processing?)
      && (s.state.Failed? || s.state.Deleted? || s.state.Removed? ==> s'.state == s.state)
      && (s.publishedAt.Some? ==> s'.publishedAt == s.publishedAt && s'.expiresAt == s.expiresAt)
      && (s'.publishedAt.Some? ==>
           s'.publishedAt.value <= w'.now && s'.expiresAt == Some(s'.publishedAt.value + w.lifetime))
      && (s'.state.Published? ==> s'.publishedAt.Some?)
  {
    hide Inv, Kept, Reachable, Path;
    ReachableInv(w);
    PathKept(w, steps, w');
    KeptStory(w, w', story);
  }

  lemma StoryEvolved(db: Db, db': Db, story: Uuid)
    requires Evolves(db, db') && story in db.stories
    ensures story in db'.stories && StoryStep(db.stories[story], db'.stories[story])
  {
  }

  lemma KeptStory(w: World, w': World, story: Uuid)
    requires Kept(w, w') && story in w.db.stories
    ensures story in w'.db.stories && StoryStep(w.db.stories[story], w'.db.stories[story])
    ensures Dated(w'.db.stories[story], w'.now, w.lifetime)
  {
    hide Inv, StoryStep, Dated;
    StoryDated(w', story);
  }

  // ----------------------------------------------------------------- cleanup

  /** Bytes that are no longer needed are always on some delete_objects job's list. */
  lemma CleanupLosesNothing(w: World, story: Uuid)
    requires Reachable(w) && story in w.db.stories
    ensures w.db.stories[story].publishedAt.Some? || w.db.stories[story].state.Failed? ==>
              OriginalScheduled(w.db, w.db.stories[story].job)
    ensures w.db.stories[story].publishedAt.Some? && !w.db.stories[story].state.Published? ==>
              Scheduled(w.db, VariantKeys(w.db.variants, story))
  {
    ReachableInv(w);
    assert StoryAccounted(w.db, story);
    StoryDated(w, story);
  }

  lemma SweptUploadsAreScheduled(w: World, upload: Uuid)
    requires Reachable(w) && upload in w.db.intents && w.db.intents[upload].state.Expired?
    ensures exists c :: c in w.db.cleanup && w.db.intents[upload].objectKey in w.db.cleanup[c].keys
  {
    ReachableInv(w);
    assert IntentAccounted(w.db, upload);
    var c :| c in w.db.cleanup && {w.db.intents[upload].objectKey} <= w.db.cleanup[c].keys;
    assert w.db.intents[upload].objectKey in w.db.cleanup[c].keys;
  }

  // ------------------------------------------------------------ finalization

  /** A replayed finalize finds exactly the story the first one created, whatever happened in between. */
  lemma FinalizeIsIdempotent(w: World, user: Uuid, upload: Uuid, job: Uuid, story: Uuid, draft: Draft,
                             steps: seq<Action>, w': World)
    requires Reachable(w) && Enabled(w, Finalize(user, upload, job, story, draft))
    requires Path(Apply(w, Finalize(user, upload, job, story, draft)), steps, w')
    ensures T.FinalizeCheck(w'.db, w'.now, user, upload) == T.Replay
    ensures forall s :: T.StoryOfUpload(w'.db, upload, s) <==> s == story
  {
    var first := Apply(w, Finalize(user, upload, job, story, draft));
    ReachableInv(w);
    StepKept(w, Finalize(user, upload, job, story, draft));
    PathKept(first, steps, w');
    ReplayFinds(first.db, w'.db, w'.now, user, upload, job, story);
  }

  lemma ReplayFinds(db: Db, db': Db, now: int, user: Uuid, upload: Uuid, job: Uuid, story: Uuid)
    requires Evolves(db, db') && Linked(db')
    requires upload in db.intents && db.intents[upload].user == user
    requires QueuedFor(db, job, upload) && story in db.stories && db.stories[story].job == job
    ensures T.FinalizeCheck(db', now, user, upload) == T.Replay
    ensures forall s :: T.StoryOfUpload(db', upload, s) <==> s == story
  {
    assert QueuedFor(db', job, upload) && JobLinked(db', job) && StoryLinked(db', story);
    forall s | T.StoryOfUpload(db', upload, s) ensures s == story {
      assert QueuedFor(db', db'.stories[s].job, upload) && StoryLinked(db', s);
    }
  }
}
