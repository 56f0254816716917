/** The store's transactions as they run, statement by statement, against its tables. */
module StoryStore {
  import opened Options
  import opened ObjectKeys
  import opened Tables
  import T = Transactions

  datatype FinalizedUpload = FinalizedUpload(story: Uuid, created: bool)

  class Store {
    var intents: map<Uuid, UploadIntent>
    var jobs: map<Uuid, MediaJob>
    var stories: map<Uuid, Story>
    var variants: map<(Uuid, VariantKind), string>
    var cleanup: map<Uuid, CleanupJob>
    var views: map<(Uuid, Uuid), View>

    constructor ()
      ensures Rows() == Db(map[], map[], map[], map[], map[], map[])
    {
      intents, jobs, stories, variants, cleanup, views := map[], map[], map[], map[], map[], map[];
    }

    ghost function Rows(): Db
      reads this
    {
      Db(intents, jobs, stories, variants, cleanup, views)
    }

    method CreateUploadIntent(now: int, id: Uuid, user: Uuid, key: string, ttl: int)
      modifies this`intents
      ensures Rows() == T.CreateUploadIntent(old(Rows()), id, user, key, now + ttl)
    {
      intents := intents[id := UploadIntent(user, key, now + ttl, Issued)];
    }

    /** `None` is ErrNotFound: absent, foreign, expired and aborted uploads all answer alike. */
    method FinalizeUpload(now: int, user: Uuid, upload: Uuid, newJob: Uuid, newStory: Uuid, draft: Draft)
      returns (r: Option<FinalizedUpload>)
      modifies this`intents, this`jobs, this`stories
      ensures match T.FinalizeCheck(old(Rows()), now, user, upload)
        case NotFound => r == None && Rows() == old(Rows())
        case Replay =>
          && Rows() == old(Rows())
          && (r.None? ==> forall s :: !T.StoryOfUpload(old(Rows()), upload, s))
          && (r.Some? ==> T.StoryOfUpload(old(Rows()), upload, r.value.story) && !r.value.created)
        case Fresh =>
          && r == Some(FinalizedUpload(newStory, true))
          && Rows() == T.FinalizeUpload(old(Rows()), now, user, upload, newJob, newStory, draft)
    {
      if upload !in intents || intents[upload].user != user {
        return None;
      }
      var ui := intents[upload];
      if ui.state.Finalized? {
        if s :| s in stories && stories[s].job in jobs && jobs[stories[s].job].intent == upload {
          assert T.StoryOfUpload(Rows(), upload, s);
          return Some(FinalizedUpload(s, false));
        }
        return None;
      }
      if !ui.state.Issued? || now > ui.expiresAt {
        return None;
      }
      intents := intents[upload := ui.(state := IntentState.Finalized)];
      jobs := jobs[newJob := MediaJob(upload, user, "", newStory, JobState.Queued, 0, MEDIA_MAX_ATTEMPTS, now)];
      stories := stories[newStory := Story(user, newJob, Processing, draft, None, None)];
      // The input is frozen last, once the story it names exists.
      jobs := jobs[newJob := jobs[newJob].(inputKey := ui.objectKey, inputStory := newStory)];
      return Some(FinalizedUpload(newStory, true));
    }

    /** Nothing is claimed exactly when nothing is due. */
    method ClaimMediaJob(owner: string, now: int, lease: int) returns (r: Option<Uuid>)
      modifies this`jobs
      ensures r.None? ==> Rows() == old(Rows()) && forall id :: !MediaDue(old(Rows()), id, now)
      ensures r.Some? ==>
                MediaDue(old(Rows()), r.value, now) && Rows() == T.ClaimMediaJob(old(Rows()), r.value, owner, now, lease)
    {
      if id :| id in jobs && Claimable(jobs[id].state, jobs[id].runAfter, now) {
        jobs := jobs[id := jobs[id].(state := Leased(owner, now + lease), attempts := jobs[id].attempts + 1)];
        return Some(id);
      }
      return None;
    }

    /** False rolls everything back, the variant rows included. */
    method PublishStory(now: int, job: Uuid, story: Uuid, vs: seq<Variant>, lifetime: int, cleanupId: Uuid)
      returns (ok: bool)
      modifies this`stories, this`jobs, this`variants, this`cleanup
      ensures ok == T.PublishStory(old(Rows()), now, job, story, vs, lifetime, cleanupId).Some?
      ensures ok ==> Rows() == T.PublishStory(old(Rows()), now, job, story, vs, lifetime, cleanupId).value
      ensures !ok ==> Rows() == old(Rows())
    {
      var begun := variants;
      for i := 0 to |vs|
        modifies this`variants
        invariant variants == T.UpsertVariants(begun, story, vs[..i])
      {
        assert vs[..i + 1][..i] == vs[..i];
        variants := variants[(story, vs[i].kind) := vs[i].key];
      }
      assert vs[..|vs|] == vs;
      if story !in stories || !stories[story].state.Processing? {
        variants := begun;
        return false;
      }
      stories := stories[story :=
        stories[story].(state := Published, publishedAt := Some(now), expiresAt := Some(now + lifetime))];
      if job in jobs {
        jobs := jobs[job := jobs[job].(state := Succeeded)];
      }
      ScheduleOriginal(now, job, cleanupId);
      return true;
    }

    method ScheduleOriginal(now: int, job: Uuid, cleanupId: Uuid)
      modifies this`cleanup
      ensures Rows() == T.ScheduleOriginal(old(Rows()), job, cleanupId, now)
    {
      if job in jobs && jobs[job].intent in intents {
        cleanup := cleanup[cleanupId := NewCleanup({intents[jobs[job].intent].objectKey}, now)];
      }
    }

    method FailMediaJob(now: int, job: Uuid, story: Uuid, retryable: bool, cleanupId: Uuid) returns (ok: bool)
      modifies this`stories, this`jobs, this`cleanup
      ensures ok == T.FailMediaJob(old(Rows()), now, job, story, retryable, cleanupId).Some?
      ensures ok ==> Rows() == T.FailMediaJob(old(Rows()), now, job, story, retryable, cleanupId).value
      ensures !ok ==> Rows() == old(Rows())
    {
      if job !in jobs {
        return false;
      }
      var attempts, maxAttempts := jobs[job].attempts, jobs[job].maxAttempts;
      if retryable && attempts < maxAttempts {
        var backoff := Backoff(attempts, MEDIA_BACKOFF);
        jobs := jobs[job := jobs[job].(state := JobState.Queued, runAfter := now + backoff)];
        return true;
      }
      jobs := jobs[job := jobs[job].(state := JobState.Failed)];
      if story in stories && stories[story].state.Processing? {
        stories := stories[story := stories[story].(state := StoryState.Failed)];
      }
      ScheduleOriginal(now, job, cleanupId);
      return true;
    }

    method DeleteStory(now: int, actor: Uuid, story: Uuid, moderator: bool, cleanupId: Uuid) returns (ok: bool)
      modifies this`stories, this`cleanup
      ensures ok == T.DeleteStory(old(Rows()), now, actor, story, moderator, cleanupId).Some?
      ensures ok ==> Rows() == T.DeleteStory(old(Rows()), now, actor, story, moderator, cleanupId).value
      ensures !ok ==> Rows() == old(Rows())
    {
      var live := story in stories && (stories[story].state.Published? || stories[story].state.Processing?);
      if moderator && live {
        stories := stories[story := stories[story].(state := Removed)];
      } else if !moderator && live && stories[story].author == actor {
        stories := stories[story := stories[story].(state := Deleted)];
      } else {
        return false;
      }
      cleanup := cleanup[cleanupId := NewCleanup(VariantKeys(variants, story), now)];
      return true;
    }

    /** An edit without a visibility keeps the audience; one with another visibility than a list forgets the list. */
    method UpdateStory(owner: Uuid, story: Uuid, edit: Edit) returns (ok: bool)
      modifies this`stories
      ensures ok <==> story in old(stories) && old(stories)[story].author == owner && old(stories)[story].state.Published?
      ensures Rows() == if ok then T.UpdateStory(old(Rows()), owner, story, edit).value else old(Rows())
    {
      if story !in stories || stories[story].author != owner || !stories[story].state.Published? {
        return false;
      }
      var audience := stories[story].audience;
      if edit.visibility.Some? {
        audience := audience.(visibility := edit.visibility.value);
        audience := audience.(audienceList := if edit.visibility == Some(CustomList) then edit.audienceList else None);
      }
      stories := stories[story := stories[story].(audience := audience)];
      return true;
    }

    method RecordView(now: int, story: Uuid, viewer: Uuid)
      modifies this`views
      ensures Rows() == T.RecordView(old(Rows()), now, story, viewer)
    {
      if (story, viewer) !in views {
        views := views[(story, viewer) := View(now, None)];
      }
    }

    method AcknowledgeView(now: int, story: Uuid, viewer: Uuid)
      modifies this`views
      ensures Rows() == T.AcknowledgeView(old(Rows()), now, story, viewer)
    {
      if (story, viewer) !in views {
        views := views[(story, viewer) := View(now, Some(now))];
      } else if views[(story, viewer)].acknowledgedAt.None? {
        views := views[(story, viewer) := views[(story, viewer)].(acknowledgedAt := Some(now))];
      }
    }

    /** `batch` is the `due` answer of the sweep with the ids its inserts drew. */
    method ExpireStories(now: int, batch: map<Uuid, Uuid>)
      requires forall c :: c in batch ==> batch[c] in stories && StoryDue(stories[batch[c]], now)
      modifies this`stories, this`cleanup
      ensures Rows() == T.ExpireStories(old(Rows()), now, batch)
    {
      cleanup := cleanup + map c | c in batch :: NewCleanup(T.ExpiryKeys(variants, batch[c]), now);
      stories := map s | s in stories :: if s in batch.Values then stories[s].(state := Deleted) else stories[s];
    }

    method GCAbandonedUploads(now: int, due: set<Uuid>, cleanupId: Uuid)
      requires forall i :: i in due ==> i in intents && IntentDue(intents[i], now)
      modifies this`intents, this`cleanup
      ensures Rows() == T.GCAbandonedUploads(old(Rows()), now, due, cleanupId)
    {
      if due != {} {
        cleanup := cleanup[cleanupId := NewCleanup(set i | i in due && i in intents :: intents[i].objectKey, now)];
        intents := map i | i in intents :: if i in due then intents[i].(state := Expired) else intents[i];
      }
    }

    method PurgeViews(now: int, retention: int)
      modifies this`views
      ensures Rows() == T.PurgeViews(old(Rows()), now, retention)
    {
      views := map v | v in views && !(views[v].deliveredAt <= now - retention) :: views[v];
    }

    method ReapExpiredLeases(now: int)
      modifies this`jobs, this`cleanup
      ensures Rows() == T.ReapExpiredLeases(old(Rows()), now)
    {
      jobs := map j | j in jobs ::
        if T.Reapable(jobs[j].state, jobs[j].attempts, jobs[j].maxAttempts, now)
        then jobs[j].(state := JobState.Queued) else jobs[j];
      cleanup := map c | c in cleanup ::
        if T.Reapable(cleanup[c].state, cleanup[c].attempts, cleanup[c].maxAttempts, now)
        then cleanup[c].(state := JobState.Queued) else cleanup[c];
    }

    method ClaimCleanupJob(owner: string, now: int, lease: int) returns (r: Option<Uuid>)
      modifies this`cleanup
      ensures r.None? ==> Rows() == old(Rows()) && forall id :: !CleanupDue(old(Rows()), id, now)
      ensures r.Some? ==>
                CleanupDue(old(Rows()), r.value, now) && Rows() == T.ClaimCleanupJob(old(Rows()), r.value, owner, now, lease)
    {
      if id :| id in cleanup && Claimable(cleanup[id].state, cleanup[id].runAfter, now) {
        cleanup := cleanup[id := cleanup[id].(state := Leased(owner, now + lease), attempts := cleanup[id].attempts + 1)];
        return Some(id);
      }
      return None;
    }

    method CompleteCleanupJob(id: Uuid)
      modifies this`cleanup
      ensures Rows() == T.CompleteCleanupJob(old(Rows()), id)
    {
      if id in cleanup {
        cleanup := cleanup[id := cleanup[id].(state := Succeeded)];
      }
    }

    method FailCleanupJob(now: int, id: Uuid, attempts: nat, max: nat)
      modifies this`cleanup
      ensures Rows() == T.FailCleanupJob(old(Rows()), now, id, attempts, max)
    {
      if id !in cleanup {
        return;
      }
      if attempts >= max {
        cleanup := cleanup[id := cleanup[id].(state := JobState.Failed)];
        return;
      }
      var backoff := Backoff(attempts, CLEANUP_BACKOFF);
      cleanup := cleanup[id := cleanup[id].(state := JobState.Queued, runAfter := now + backoff)];
    }
  }
}
