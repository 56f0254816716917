/** One short run of the pipeline, state by state: an upload is claimed, processed, published and viewed at instant 0. */
module ShortRun {
  import opened Options
  import opened ObjectKeys
  import opened Tables
  import opened Protocol
  import T = Transactions

  const DRAFT := Draft(Public, None)
  const KEY := "u/1"

  function Output(): string {
    VariantKey(UuidText(1), Image.Name(), "png")
  }

  function Beginning(lifetime: int): World {
    World(0, lifetime, Db(map[], map[], map[], map[], map[], map[]), {}, map[], map[], {})
  }

  function Issued(lifetime: int): World {
    World(0, lifetime, Db(map[1 := UploadIntent(1, KEY, 1, IntentState.Issued)], map[], map[], map[], map[], map[]), {}, map[], map[], {})
  }

  function Finalized(lifetime: int): World {
    World(0, lifetime,
      Db(map[1 := UploadIntent(1, KEY, 1, IntentState.Finalized)], map[1 := Job(JobState.Queued, 0)],
         map[1 := Story(1, 1, Processing, DRAFT, None, None)], map[], map[], map[]),
      {}, map[], map[], {})
  }

  function Job(state: JobState, attempts: nat): MediaJob {
    MediaJob(1, 1, KEY, 1, state, attempts, MEDIA_MAX_ATTEMPTS, 0)
  }

  function Claimed(lifetime: int): World {
    Finalized(lifetime).(
      db := Finalized(lifetime).db.(jobs := map[1 := Job(Leased("", 1), 1)]),
      media := map[0 := MediaRun(1, 1, [])])
  }

  /** The worker has stored its one output. */
  function Uploaded(lifetime: int): World {
    Claimed(lifetime).(objects := {Output()}, media := map[0 := MediaRun(1, 1, [Variant(Image, Output())])])
  }

  function PublishedDb(lifetime: int, views: map<(Uuid, Uuid), View>): Db {
    Db(map[1 := UploadIntent(1, KEY, 1, IntentState.Finalized)], map[1 := Job(Succeeded, 1)],
       map[1 := Story(1, 1, Published, DRAFT, Some(0), Some(lifetime))], map[(1, Image) := Output()],
       map[1 := NewCleanup({KEY}, 0)], views)
  }

  function PublishedWorld(lifetime: int): World {
    World(0, lifetime, PublishedDb(lifetime, map[]), {Output()}, map[], map[], {})
  }

  function Viewed(lifetime: int): World {
    World(0, lifetime, PublishedDb(lifetime, map[(1, 2) := View(0, None)]), {Output()}, map[], map[], {(1, 2)})
  }

  lemma Begin(lifetime: int)
    ensures Initial(Beginning(lifetime)) && Enabled(Beginning(lifetime), CreateIntent(1, 1, KEY, 1))
    ensures Apply(Beginning(lifetime), CreateIntent(1, 1, KEY, 1)) == Issued(lifetime)
  {
  }

  lemma Finalizing(lifetime: int)
    ensures Enabled(Issued(lifetime), Finalize(1, 1, 1, 1, DRAFT))
    ensures Apply(Issued(lifetime), Finalize(1, 1, 1, 1, DRAFT)) == Finalized(lifetime)
  {
  }

  lemma Claiming(lifetime: int)
    ensures Enabled(Finalized(lifetime), ClaimMedia(0, 1, "", 1))
    ensures Apply(Finalized(lifetime), ClaimMedia(0, 1, "", 1)) == Claimed(lifetime)
  {
  }

  lemma Uploading(lifetime: int)
    ensures Enabled(Claimed(lifetime), PutVariant(0, Image, "png"))
    ensures Apply(Claimed(lifetime), PutVariant(0, Image, "png")) == Uploaded(lifetime)
  {
    hide VariantKey, UuidText;
    var w, w' := Claimed(lifetime), Apply(Claimed(lifetime), PutVariant(0, Image, "png"));
    assert w.media[0] == MediaRun(1, 1, []);
    assert w'.objects == w.objects + {Output()};
    assert w'.objects == Uploaded(lifetime).objects;
    assert w'.media[0] == MediaRun(1, 1, [Variant(Image, Output())]) && w'.media.Keys == {0};
  }

  lemma Upserting()
    ensures T.UpsertVariants(map[], 1, [Variant(Image, Output())]) == map[(1, Image) := Output()]
  {
    hide VariantKey, UuidText;
    var vs := [Variant(Image, Output())];
    assert vs[..0] == [] && T.UpsertVariants(map[], 1, []) == map[];
  }

  lemma Publishing(lifetime: int)
    ensures Enabled(Uploaded(lifetime), Publish(0, 1))
    ensures Apply(Uploaded(lifetime), Publish(0, 1)) == PublishedWorld(lifetime)
  {
    hide VariantKey, UuidText, T.UpsertVariants;
    var w := Uploaded(lifetime);
    Upserting();
    var r := T.PublishStory(w.db, 0, 1, 1, [Variant(Image, Output())], lifetime, 1).value;
    assert r.jobs == PublishedDb(lifetime, map[]).jobs;
    assert r.stories == PublishedDb(lifetime, map[]).stories;
    assert r.cleanup == PublishedDb(lifetime, map[]).cleanup;
    assert w.media - {0} == map[];
  }

  lemma Viewing(lifetime: int)
    requires lifetime > 0
    ensures Enabled(PublishedWorld(lifetime), Resolve(1, 2))
    ensures Enabled(Apply(PublishedWorld(lifetime), Resolve(1, 2)), RecordView(1, 2))
    ensures Apply(Apply(PublishedWorld(lifetime), Resolve(1, 2)), RecordView(1, 2)) == Viewed(lifetime)
  {
    hide VariantKey, UuidText;
  }

  lemma ReachableStep(w: World, a: Action)
    requires Reachable(w) && Enabled(w, a)
    ensures Reachable(Apply(w, a))
  {
    var w0: World, steps: seq<Action> :| Initial(w0) && Path(w0, steps, w);
    PathExtend(w0, steps, w, a);
  }

  lemma UploadedIsReachable(lifetime: int)
    ensures Reachable(Uploaded(lifetime)) && Reachable(Claimed(lifetime))
  {
    var w0 := Beginning(lifetime);
    Begin(lifetime);
    Finalizing(lifetime);
    Claiming(lifetime);
    Uploading(lifetime);
    assert Path(w0, [], w0);
    hide *;
    ReachableStep(w0, CreateIntent(1, 1, KEY, 1));
    ReachableStep(Issued(lifetime), Finalize(1, 1, 1, 1, DRAFT));
    ReachableStep(Finalized(lifetime), ClaimMedia(0, 1, "", 1));
    ReachableStep(Claimed(lifetime), PutVariant(0, Image, "png"));
  }

  lemma ViewedIsReachable(lifetime: int)
    requires lifetime > 0
    ensures Reachable(Viewed(lifetime))
  {
    Publishing(lifetime);
    Viewing(lifetime);
    hide *;
    UploadedIsReachable(lifetime);
    ReachableStep(Uploaded(lifetime), Publish(0, 1));
    ReachableStep(PublishedWorld(lifetime), Resolve(1, 2));
    ReachableStep(Apply(PublishedWorld(lifetime), Resolve(1, 2)), RecordView(1, 2));
  }
}
