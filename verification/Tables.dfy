/** The rows the story pipeline reads and writes. Instants and durations are integer nanoseconds. */
module Tables {
  import opened Options
  import opened ObjectKeys
  import opened Clock
  import opened Numbers

  datatype IntentState = Issued | Finalized | Aborted | Expired

  datatype UploadIntent = UploadIntent(user: Uuid, objectKey: string, expiresAt: int, state: IntentState)

  /** lease_owner and lease_expires_at are non-null exactly while a job is leased. */
  datatype JobState = Queued | Leased(owner: string, until: int) | Succeeded | Failed

  datatype MediaJob = MediaJob(
    intent: Uuid, user: Uuid, inputKey: string, inputStory: Uuid,
    state: JobState, attempts: nat, maxAttempts: nat, runAfter: int)

  datatype StoryState = Processing | Published | Failed | Deleted | Removed
  {
    predicate Gone() { Deleted? || Removed? }
  }

  datatype Visibility = FollowersOfAuthor | AuthorFollows | Mutuals | CustomList | Public

  datatype Draft = Draft(visibility: Visibility, audienceList: Option<Uuid>)

  /** What an edit says about the audience; without a visibility it leaves the audience alone. */
  datatype Edit = Edit(visibility: Option<Visibility>, audienceList: Option<Uuid>)

  datatype Story = Story(
    author: Uuid, job: Uuid, state: StoryState, audience: Draft,
    publishedAt: Option<int>, expiresAt: Option<int>)

  datatype Variant = Variant(kind: VariantKind, key: string)

  /** A delete_objects job; the payload's key array has no specified order. */
  datatype CleanupJob = CleanupJob(
    keys: set<string>, state: JobState, attempts: nat, maxAttempts: nat, runAfter: int)

  datatype View = View(deliveredAt: int, acknowledgedAt: Option<int>)

  datatype Db = Db(
    intents: map<Uuid, UploadIntent>,
    jobs: map<Uuid, MediaJob>,
    stories: map<Uuid, Story>,
    variants: map<(Uuid, VariantKind), string>,
    cleanup: map<Uuid, CleanupJob>,
    views: map<(Uuid, Uuid), View>)

  const MEDIA_MAX_ATTEMPTS: nat := 3
  const CLEANUP_MAX_ATTEMPTS: nat := 8

  function NewCleanup(keys: set<string>, now: int): CleanupJob {
    CleanupJob(keys, JobState.Queued, 0, CLEANUP_MAX_ATTEMPTS, now)
  }

  predicate Claimable(state: JobState, runAfter: int, now: int) {
    runAfter <= now && (state.Queued? || (state.Leased? && state.until < now))
  }

  predicate MediaDue(db: Db, id: Uuid, now: int) {
    id in db.jobs && Claimable(db.jobs[id].state, db.jobs[id].runAfter, now)
  }

  predicate CleanupDue(db: Db, id: Uuid, now: int) {
    id in db.cleanup && Claimable(db.cleanup[id].state, db.cleanup[id].runAfter, now)
  }

  /** Published, with both dates, and not expired; at exactly its expiry an item is over. */
  predicate Live(s: Story, now: int) {
    s.state.Published? && s.publishedAt.Some? && s.expiresAt.Some? && now < s.expiresAt.value
  }

  predicate StoryDue(s: Story, now: int) {
    s.state.Published? && s.expiresAt.Some? && s.expiresAt.value <= now
  }

  predicate IntentDue(i: UploadIntent, now: int) {
    i.state.Issued? && i.expiresAt <= now
  }

  function VariantKeys(variants: map<(Uuid, VariantKind), string>, story: Uuid): set<string> {
    set kind: VariantKind | (story, kind) in variants :: variants[(story, kind)]
  }

  /** The upload a media job was queued for, by way of its intent. */
  function OriginalOf(db: Db, job: Uuid): Option<string> {
    if job in db.jobs && db.jobs[job].intent in db.intents
    then Some(db.intents[db.jobs[job].intent].objectKey) else None
  }

  // ---------------------------------------------------------------- backoff

  const TWO_63: int := 0x8000_0000_0000_0000
  const TWO_64: int := 0x1_0000_0000_0000_0000

  function Int64(x: int): int {
    (x + TWO_63) % TWO_64 - TWO_63
  }

  /** `time.Duration(1<<uint(attempts)) * unit` in 64-bit arithmetic. */
  function Backoff(attempts: nat, unit: int): int {
    Int64(Int64(Pow2(attempts)) * unit)
  }

  const CLEANUP_BACKOFF: int := 30 * SECOND
  const MEDIA_BACKOFF: int := 10 * SECOND

  lemma {:induction false} Pow2Monotone(a: nat, b: nat)
    requires a <= b
    ensures 1 <= Pow2(a) <= Pow2(b)
  {
    if a < b {
      Pow2Monotone(a, b - 1);
    } else if a > 0 {
      Pow2Monotone(a - 1, a - 1);
    }
  }

  lemma Pow2Values()
    ensures Pow2(28) == 0x1000_0000
    ensures Pow2(29) == 0x2000_0000
    ensures Pow2(30) == 0x4000_0000
  {
    assert Pow2(4) == 16;
    assert Pow2(8) == 256;
    assert Pow2(12) == 4096;
    assert Pow2(16) == 65536;
    assert Pow2(20) == 1048576;
    assert Pow2(24) == 16777216;
  }

  lemma BackoffSafe(attempts: nat, unit: int, top: nat)
    requires attempts <= top && 0 < unit
    requires Pow2(top) * unit < TWO_63
    ensures Backoff(attempts, unit) == Pow2(attempts) * unit > 0
  {
    Pow2Monotone(attempts, top);
    var p, q := Pow2(attempts), Pow2(top);
    Multiplied(p, q, unit);
    Int64Exact(p);
    Int64Exact(p * unit);
  }

  lemma Multiplied(p: int, q: int, unit: int)
    requires 1 <= p <= q && 0 < unit
    ensures p <= p * unit <= q * unit
  {
  }

  lemma Int64Exact(x: int)
    requires 0 <= x < TWO_63
    ensures Int64(x) == x
  {
  }

  /** The wrap-around of a 64-bit integer: in range, and off by a multiple of two to the 64th. */
  lemma Int64Wraps(x: int)
    ensures -0x8000_0000_0000_0000 <= Int64(x) < 0x8000_0000_0000_0000
    ensures (x - Int64(x)) % 0x1_0000_0000_0000_0000 == 0
  {
  }

  /** Every retry a cleanup budget allows is pushed into the future exactly when the budget is at most 29. */
  lemma CleanupBackoffPositive(max: nat)
    ensures (forall a: nat :: a < max ==> Backoff(a, CLEANUP_BACKOFF) > 0) <==> max <= 29
  {
    Pow2Values();
    if max <= 29 {
      forall a: nat | a < max ensures Backoff(a, CLEANUP_BACKOFF) > 0 {
        BackoffSafe(a, CLEANUP_BACKOFF, 28);
      }
    } else {
      assert Backoff(29, CLEANUP_BACKOFF) < 0;
    }
  }

  /** Media retries use a ten-second unit and have one more attempt of headroom. */
  lemma MediaBackoffPositive(max: nat)
    ensures (forall a: nat :: a < max ==> Backoff(a, MEDIA_BACKOFF) > 0) <==> max <= 30
  {
    Pow2Values();
    if max <= 30 {
      forall a: nat | a < max ensures Backoff(a, MEDIA_BACKOFF) > 0 {
        BackoffSafe(a, MEDIA_BACKOFF, 29);
      }
    } else {
      assert Backoff(30, MEDIA_BACKOFF) < 0;
    }
  }
}
