/**
 * The story pipeline as a state machine. Every table transaction and every object-store call is one
 * atomic step; handlers in flight keep only what their code keeps in local variables, may stop
 * between any two steps, and never learn that their lease has run out.
 */
module Protocol {
  import opened Options
  import opened ObjectKeys
  import opened Tables
  import T = Transactions

  /** handleMediaJob between its claim and its return. */
  datatype MediaRun = MediaRun(job: Uuid, story: Uuid, puts: seq<Variant>)

  /** handleCleanupJob between its claim and its return. */
  datatype CleanupRun = CleanupRun(job: Uuid, attempts: nat, max: nat, todo: set<string>)

  datatype World = World(
    now: int,
    lifetime: int,
    db: Db,
    objects: set<string>,
    media: map<nat, MediaRun>,
    cleaners: map<nat, CleanupRun>,
    readers: set<(Uuid, Uuid)>)

  datatype Action =
    | Tick(to: int)
    | CreateIntent(id: Uuid, user: Uuid, key: string, ttl: int)
    | ClientPut(upload: Uuid)
    | Finalize(user: Uuid, upload: Uuid, newJob: Uuid, newStory: Uuid, draft: Draft)
    | ClaimMedia(run: nat, job: Uuid, owner: string, lease: int)
    | PutVariant(run: nat, kind: VariantKind, ext: string)
    | Publish(run: nat, cleanupId: Uuid)
    | FailMedia(run: nat, retryable: bool, cleanupId: Uuid)
    | DropMedia(run: nat)
    | Delete(actor: Uuid, story: Uuid, moderator: bool, cleanupId: Uuid)
    | Update(actor: Uuid, story: Uuid, edit: Edit)
    | Expire(batch: map<Uuid, Uuid>)
    | CollectUploads(due: set<Uuid>, cleanupId: Uuid)
    | PurgeViews(retention: int)
    | Reap
    | ClaimCleanup(run: nat, job: Uuid, owner: string, lease: int)
    | DeleteObject(run: nat, key: string)
    | CompleteCleanup(run: nat)
    | FailCleanup(run: nat)
    | DropCleanup(run: nat)
    | Resolve(story: Uuid, viewer: Uuid)
    | RecordView(story: Uuid, viewer: Uuid)
    | AcknowledgeView(story: Uuid, viewer: Uuid)

  ghost predicate Enabled(w: World, a: Action) {
    match a
    case Tick(to) => w.now <= to
    case CreateIntent(id, _, key, _) =>
      id !in w.db.intents && UploadKey(key) && forall i :: i in w.db.intents ==> w.db.intents[i].objectKey != key
    case ClientPut(upload) => upload in w.db.intents
    case Finalize(user, upload, job, story, _) =>
      T.FinalizeCheck(w.db, w.now, user, upload).Fresh? && job !in w.db.jobs && story !in w.db.stories
    case ClaimMedia(run, job, _, _) => run !in w.media && MediaDue(w.db, job, w.now)
    case PutVariant(run, _, _) => run in w.media
    case Publish(run, cleanupId) => run in w.media && cleanupId !in w.db.cleanup
    case FailMedia(run, _, cleanupId) => run in w.media && cleanupId !in w.db.cleanup
    case DropMedia(run) => run in w.media
    case Delete(_, _, _, cleanupId) => cleanupId !in w.db.cleanup
    case Update(_, _, _) => true
    case Expire(batch) =>
      && batch.Keys !! w.db.cleanup.Keys
      && (forall c :: c in batch ==> batch[c] in w.db.stories && StoryDue(w.db.stories[batch[c]], w.now))
      && (forall c, c' :: c in batch && c' in batch && batch[c] == batch[c'] ==> c == c')
    case CollectUploads(due, cleanupId) =>
      && cleanupId !in w.db.cleanup
      && forall i :: i in due ==> i in w.db.intents && IntentDue(w.db.intents[i], w.now)
    case PurgeViews(_) => true
    case Reap => true
    case ClaimCleanup(run, job, _, _) => run !in w.cleaners && CleanupDue(w.db, job, w.now)
    case DeleteObject(run, key) => run in w.cleaners && key in w.cleaners[run].todo
    case CompleteCleanup(run) => run in w.cleaners && w.cleaners[run].todo == {}
    case FailCleanup(run) => run in w.cleaners
    case DropCleanup(run) => run in w.cleaners
    case Resolve(story, _) => story in w.db.stories && Live(w.db.stories[story], w.now)
    case RecordView(story, viewer) => (story, viewer) in w.readers
    case AcknowledgeView(story, viewer) => (story, viewer) in w.readers
  }

  function OrElse(r: Option<Db>, db: Db): Db {
    if r.Some? then r.value else db
  }

  ghost function Apply(w: World, a: Action): World
    requires Enabled(w, a)
  {
    match a
    case Tick(to) => w.(now := to)
    case CreateIntent(id, user, key, ttl) => w.(db := T.CreateUploadIntent(w.db, id, user, key, w.now + ttl))
    case ClientPut(upload) => w.(objects := w.objects + {w.db.intents[upload].objectKey})
    case Finalize(user, upload, job, story, draft) =>
      w.(db := T.FinalizeUpload(w.db, w.now, user, upload, job, story, draft))
    case ClaimMedia(run, job, owner, lease) =>
      w.(db := T.ClaimMediaJob(w.db, job, owner, w.now, lease),
         media := w.media[run := MediaRun(job, w.db.jobs[job].inputStory, [])])
    case PutVariant(run, kind, ext) =>
      var m := w.media[run];
      var v := Variant(kind, VariantKey(UuidText(m.story), kind.Name(), ext));
      w.(objects := w.objects + {v.key}, media := w.media[run := m.(puts := m.puts + [v])])
    case Publish(run, cleanupId) =>
      var m := w.media[run];
      w.(db := OrElse(T.PublishStory(w.db, w.now, m.job, m.story, m.puts, w.lifetime, cleanupId), w.db),
         media := w.media - {run})
    case FailMedia(run, retryable, cleanupId) =>
      var m := w.media[run];
      w.(db := OrElse(T.FailMediaJob(w.db, w.now, m.job, m.story, retryable, cleanupId), w.db),
         media := w.media - {run})
    case DropMedia(run) => w.(media := w.media - {run})
    case Delete(actor, story, moderator, cleanupId) =>
      w.(db := OrElse(T.DeleteStory(w.db, w.now, actor, story, moderator, cleanupId), w.db))
    case Update(actor, story, edit) => w.(db := OrElse(T.UpdateStory(w.db, actor, story, edit), w.db))
    case Expire(batch) => w.(db := T.ExpireStories(w.db, w.now, batch))
    case CollectUploads(due, cleanupId) => w.(db := T.GCAbandonedUploads(w.db, w.now, due, cleanupId))
    case PurgeViews(retention) => w.(db := T.PurgeViews(w.db, w.now, retention))
    case Reap => w.(db := T.ReapExpiredLeases(w.db, w.now))
    case ClaimCleanup(run, job, owner, lease) =>
      var db' := T.ClaimCleanupJob(w.db, job, owner, w.now, lease);
      var j := db'.cleanup[job];
      w.(db := db', cleaners := w.cleaners[run := CleanupRun(job, j.attempts, j.maxAttempts, j.keys)])
    case DeleteObject(run, key) =>
      var c := w.cleaners[run];
      w.(objects := w.objects - {key}, cleaners := w.cleaners[run := c.(todo := c.todo - {key})])
    case CompleteCleanup(run) =>
      w.(db := T.CompleteCleanupJob(w.db, w.cleaners[run].job), cleaners := w.cleaners - {run})
    case FailCleanup(run) =>
      var c := w.cleaners[run];
      w.(db := T.FailCleanupJob(w.db, w.now, c.job, c.attempts, c.max), cleaners := w.cleaners - {run})
    case DropCleanup(run) => w.(cleaners := w.cleaners - {run})
    case Resolve(story, viewer) => w.(readers := w.readers + {(story, viewer)})
    case RecordView(story, viewer) => w.(db := T.RecordView(w.db, w.now, story, viewer))
    case AcknowledgeView(story, viewer) => w.(db := T.AcknowledgeView(w.db, w.now, story, viewer))
  }

  predicate Initial(w: World) {
    && w.db == Db(map[], map[], map[], map[], map[], map[])
    && w.objects == {} && w.media == map[] && w.cleaners == map[] && w.readers == {}
  }

  /** `w'` is reached from `w` by exactly these steps. */
  ghost predicate Path(w: World, steps: seq<Action>, w': World)
    decreases |steps|
  {
    if steps == [] then w == w'
    else Enabled(w, steps[0]) && Path(Apply(w, steps[0]), steps[1..], w')
  }

  ghost predicate Reachable(w: World) {
    exists w0: World, steps: seq<Action> :: Initial(w0) && Path(w0, steps, w)
  }

  lemma {:induction false} PathExtend(w: World, steps: seq<Action>, w': World, a: Action)
    requires Path(w, steps, w') && Enabled(w', a)
    ensures Path(w, steps + [a], Apply(w', a))
    decreases |steps|
  {
    if steps == [] {
      assert Path(Apply(w, a), [], Apply(w, a));
      assert ([a])[1..] == [];
    } else {
      PathExtend(Apply(w, steps[0]), steps[1..], w', a);
      assert (steps + [a])[1..] == steps[1..] + [a];
    }
  }

  lemma {:induction false} PathJoin(w: World, steps: seq<Action>, mid: World, more: seq<Action>, w': World)
    requires Path(w, steps, mid) && Path(mid, more, w')
    ensures Path(w, steps + more, w')
    decreases |steps|
  {
    if steps == [] {
      assert steps + more == more;
    } else {
      PathJoin(Apply(w, steps[0]), steps[1..], mid, more, w');
      assert (steps + more)[1..] == steps[1..] + more;
    }
  }
}
