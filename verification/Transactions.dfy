/** What each store transaction does to the tables. Failure is `None`: the transaction rolls back. */
module Transactions {
  import opened Options
  import opened ObjectKeys
  import opened Tables

  function CreateUploadIntent(db: Db, id: Uuid, user: Uuid, key: string, expiresAt: int): Db {
    db.(intents := db.intents[id := UploadIntent(user, key, expiresAt, Issued)])
  }

  /** What finalizing answers before anything is written. */
  datatype FinalizeAnswer = NotFound | Replay | Fresh

  function FinalizeCheck(db: Db, now: int, user: Uuid, upload: Uuid): FinalizeAnswer {
    if upload !in db.intents || db.intents[upload].user != user then NotFound
    else match db.intents[upload].state
      case Finalized => Replay
      case Issued => if now > db.intents[upload].expiresAt then NotFound else Fresh
      case _ => NotFound
  }

  function FinalizeUpload(db: Db, now: int, user: Uuid, upload: Uuid, job: Uuid, story: Uuid, draft: Draft): Db
    requires upload in db.intents
  {
    var ui := db.intents[upload];
    db.(intents := db.intents[upload := ui.(state := Finalized)],
        jobs := db.jobs[job := MediaJob(upload, user, ui.objectKey, story, JobState.Queued, 0, MEDIA_MAX_ATTEMPTS, now)],
        stories := db.stories[story := Story(user, job, Processing, draft, None, None)])
  }

  /** The replay join: the story whose job carries this upload. */
  predicate StoryOfUpload(db: Db, upload: Uuid, story: Uuid) {
    && story in db.stories
    && db.stories[story].job in db.jobs
    && db.jobs[db.stories[story].job].intent == upload
  }

  function ClaimMediaJob(db: Db, id: Uuid, owner: string, now: int, lease: int): Db
    requires id in db.jobs
  {
    var j := db.jobs[id];
    db.(jobs := db.jobs[id := j.(state := Leased(owner, now + lease), attempts := j.attempts + 1)])
  }

  function UpsertVariants(m: map<(Uuid, VariantKind), string>, story: Uuid, vs: seq<Variant>)
    : map<(Uuid, VariantKind), string>
  {
    if vs == [] then m
    else UpsertVariants(m, story, vs[..|vs| - 1])[(story, vs[|vs| - 1].kind) := vs[|vs| - 1].key]
  }

  /** Insert-select of a delete_objects job for the original upload; no row when the join is empty. */
  function ScheduleOriginal(db: Db, job: Uuid, cleanupId: Uuid, now: int): Db {
    match OriginalOf(db, job)
    case None => db
    case Some(key) => db.(cleanup := db.cleanup[cleanupId := NewCleanup({key}, now)])
  }

  function PublishStory(db: Db, now: int, job: Uuid, story: Uuid, vs: seq<Variant>, lifetime: int, cleanupId: Uuid)
    : Option<Db>
  {
    if story !in db.stories || !db.stories[story].state.Processing? then None
    else
      var s := db.stories[story].(state := Published, publishedAt := Some(now), expiresAt := Some(now + lifetime));
      var db1 := db.(variants := UpsertVariants(db.variants, story, vs), stories := db.stories[story := s]);
      var db2 := if job in db1.jobs then db1.(jobs := db1.jobs[job := db1.jobs[job].(state := Succeeded)]) else db1;
      Some(ScheduleOriginal(db2, job, cleanupId, now))
  }

  function FailMediaJob(db: Db, now: int, job: Uuid, story: Uuid, retryable: bool, cleanupId: Uuid): Option<Db> {
    if job !in db.jobs then None
    else
      var j := db.jobs[job];
      if retryable && j.attempts < j.maxAttempts then
        Some(db.(jobs := db.jobs[job := j.(state := JobState.Queued, runAfter := now + Backoff(j.attempts, MEDIA_BACKOFF))]))
      else
        var db1 := db.(jobs := db.jobs[job := j.(state := JobState.Failed)]);
        var db2 := if story in db1.stories && db1.stories[story].state.Processing?
          then db1.(stories := db1.stories[story := db1.stories[story].(state := StoryState.Failed)]) else db1;
        Some(ScheduleOriginal(db2, job, cleanupId, now))
  }

  /** Owner or moderator deletion; both leave only live or processing stories. */
  function DeleteStory(db: Db, now: int, actor: Uuid, story: Uuid, moderator: bool, cleanupId: Uuid): Option<Db> {
    if story !in db.stories then None
    else
      var s := db.stories[story];
      if !(s.state.Published? || s.state.Processing?) || (!moderator && s.author != actor) then None
      else
        Some(db.(stories := db.stories[story := s.(state := if moderator then Removed else Deleted)],
                 cleanup := db.cleanup[cleanupId := NewCleanup(VariantKeys(db.variants, story), now)]))
  }

  function Edited(draft: Draft, edit: Edit): Draft {
    match edit.visibility
    case None => draft
    case Some(v) => Draft(v, if v == CustomList then edit.audienceList else None)
  }

  function UpdateStory(db: Db, owner: Uuid, story: Uuid, edit: Edit): Option<Db> {
    if story !in db.stories || db.stories[story].author != owner || !db.stories[story].state.Published? then None
    else
      var s := db.stories[story];
      Some(db.(stories := db.stories[story := s.(audience := Edited(s.audience, edit))]))
  }

  /** A left join with no variants aggregates to `[null]`, which decodes to one empty key. */
  function ExpiryKeys(variants: map<(Uuid, VariantKind), string>, story: Uuid): set<string> {
    if VariantKeys(variants, story) == {} then {""} else VariantKeys(variants, story)
  }

  /** `batch` names the due stories a sweep took and the id of the job it inserted for each. */
  function ExpireStories(db: Db, now: int, batch: map<Uuid, Uuid>): Db {
    db.(stories := map s | s in db.stories ::
          if s in batch.Values then db.stories[s].(state := Deleted) else db.stories[s],
        cleanup := db.cleanup + map c | c in batch :: NewCleanup(ExpiryKeys(db.variants, batch[c]), now))
  }

  function GCAbandonedUploads(db: Db, now: int, due: set<Uuid>, cleanupId: Uuid): Db {
    if due == {} then db
    else
      db.(intents := map i | i in db.intents ::
            if i in due then db.intents[i].(state := Expired) else db.intents[i],
          cleanup := db.cleanup[cleanupId :=
            NewCleanup(set i | i in due && i in db.intents :: db.intents[i].objectKey, now)])
  }

  function PurgeViews(db: Db, now: int, retention: int): Db {
    db.(views := map v | v in db.views && !(db.views[v].deliveredAt <= now - retention) :: db.views[v])
  }

  predicate Reapable(state: JobState, attempts: nat, maxAttempts: nat, now: int) {
    state.Leased? && state.until < now && attempts < maxAttempts
  }

  function ReapExpiredLeases(db: Db, now: int): Db {
    db.(jobs := map j | j in db.jobs ::
          if Reapable(db.jobs[j].state, db.jobs[j].attempts, db.jobs[j].maxAttempts, now)
          then db.jobs[j].(state := JobState.Queued) else db.jobs[j],
        cleanup := map c | c in db.cleanup ::
          if Reapable(db.cleanup[c].state, db.cleanup[c].attempts, db.cleanup[c].maxAttempts, now)
          then db.cleanup[c].(state := JobState.Queued) else db.cleanup[c])
  }

  function ClaimCleanupJob(db: Db, id: Uuid, owner: string, now: int, lease: int): Db
    requires id in db.cleanup
  {
    var j := db.cleanup[id];
    db.(cleanup := db.cleanup[id := j.(state := Leased(owner, now + lease), attempts := j.attempts + 1)])
  }

  function CompleteCleanupJob(db: Db, id: Uuid): Db {
    if id in db.cleanup then db.(cleanup := db.cleanup[id := db.cleanup[id].(state := Succeeded)]) else db
  }

  /** `attempts` and `max` are the values the claim returned, not the row's current ones. */
  function FailCleanupJob(db: Db, now: int, id: Uuid, attempts: nat, max: nat): Db {
    if id !in db.cleanup then db
    else if attempts >= max then
      db.(cleanup := db.cleanup[id := db.cleanup[id].(state := JobState.Failed)])
    else
      db.(cleanup := db.cleanup[id := db.cleanup[id].(
        state := JobState.Queued, runAfter := now + Backoff(attempts, CLEANUP_BACKOFF))])
  }

  function RecordView(db: Db, now: int, story: Uuid, viewer: Uuid): Db {
    if (story, viewer) in db.views then db
    else db.(views := db.views[(story, viewer) := View(now, None)])
  }

  function AcknowledgeView(db: Db, now: int, story: Uuid, viewer: Uuid): Db {
    if (story, viewer) !in db.views then db.(views := db.views[(story, viewer) := View(now, Some(now))])
    else
      var v := db.views[(story, viewer)];
      db.(views := db.views[(story, viewer) := if v.acknowledgedAt.None? then v.(acknowledgedAt := Some(now)) else v])
  }
}
