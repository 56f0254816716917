/**
 * The worker's handlers and loops as sequential code. Each of them is one schedule of the protocol's
 * atomic steps, so everything proved for all schedules holds for them.
 */
module Worker {
  import opened Options
  import opened ObjectKeys
  import opened Clock
  import opened Numbers
  import opened Tables
  import opened Protocol
  import T = Transactions
  import S = StoryStore
  import O = Objects

  datatype Output = Output(kind: VariantKind, ext: string, data: seq<bv8>)

  /** How one attempt goes, as far as code outside this model decides it. */
  datatype Outcome =
    | ScratchFails
    | DownloadFails
    | TooLarge
    | Panics
    | ProcessFails(retryable: bool)
    | Produces(outputs: seq<Output>, failedPut: nat)

  /** And whether the database is there when the attempt comes to record how it went. */
  datatype Attempt = Attempt(outcome: Outcome, databaseDown: bool)

  /** What comes of a claim. */
  datatype Claim = Handled | NoneDue | ClaimFailed

  /** What a claim loop meets before and at a claim. */
  datatype Signal = Proceed | Cancelled | DeadlinePassed | ClaimFails

  class Config {
    const owner: string
    const mediaLease: int
    const cleanupLease: int
    const lifetime: int
    const retention: int

    /** Non-positive settings take their defaults. */
    constructor (owner: string, mediaLease: int, cleanupLease: int, lifetime: int, retention: int)
      ensures this.mediaLease > 0 && this.cleanupLease > 0 && this.lifetime > 0 && this.retention > 0
      ensures this.owner == owner
      ensures this.mediaLease == if mediaLease > 0 then mediaLease else 5 * MINUTE
      ensures this.cleanupLease == if cleanupLease > 0 then cleanupLease else 2 * MINUTE
      ensures this.lifetime == if lifetime > 0 then lifetime else 24 * HOUR
      ensures this.retention == if retention > 0 then retention else 7 * 24 * HOUR
      ensures lifetime <= 0 && retention <= 0 ==> this.retention >= this.lifetime
    {
      this.owner := owner;
      this.mediaLease := if mediaLease <= 0 then 5 * MINUTE else mediaLease;
      this.cleanupLease := if cleanupLease <= 0 then 2 * MINUTE else cleanupLease;
      this.lifetime := if lifetime <= 0 then 24 * HOUR else lifetime;
      this.retention := if retention <= 0 then 7 * 24 * HOUR else retention;
    }
  }

  /** How a failed attempt ends: recorded, or with the claim's lease left to run out. */
  function FailEnd(run: nat, retryable: bool, cleanupId: Uuid, databaseDown: bool): Action {
    if databaseDown then DropMedia(run) else FailMedia(run, retryable, cleanupId)
  }

  /** The steps of one attempt, in order: what is stored before it fails or publishes, and how it ends. */
  function Script(run: nat, cleanupId: Uuid, present: bool, attempt: Attempt): seq<Action> {
    var down := attempt.databaseDown;
    if attempt.outcome.ScratchFails? then [FailEnd(run, true, cleanupId, down)]
    else if !present then [FailEnd(run, false, cleanupId, down)]
    else
      match attempt.outcome
      case DownloadFails => [FailEnd(run, true, cleanupId, down)]
      case Panics => [FailEnd(run, true, cleanupId, down)]
      case ProcessFails(retryable) => [FailEnd(run, retryable, cleanupId, down)]
      case Produces(outputs, failedPut) =>
        if failedPut < |outputs| then Puts(run, outputs[..failedPut]) + [FailEnd(run, true, cleanupId, down)]
        else Puts(run, outputs) + [if down then DropMedia(run) else Publish(run, cleanupId)]
      case _ => [FailEnd(run, false, cleanupId, down)]
  }

  /** Whether a failed attempt may be tried again: the original is there and nothing has found it unfit. */
  ghost predicate Retryable(present: bool, outcome: Outcome) {
    || outcome == ScratchFails
    || (present && (outcome == DownloadFails || outcome == Panics || outcome == ProcessFails(true) || outcome.Produces?))
  }

  ghost predicate Succeeds(present: bool, outcome: Outcome) {
    present && outcome.Produces? && |outcome.outputs| <= outcome.failedPut
  }

  /**
   * What a script amounts to: one output stored after the other up to the first that fails; then a publication if
   * all went well, a reported failure otherwise, or nothing recorded without the database.
   */
  lemma {:induction false} ScriptIs(run: nat, cleanupId: Uuid, present: bool, attempt: Attempt)
    ensures var (steps, outcome) := (Script(run, cleanupId, present, attempt), attempt.outcome);
      var stored := if present && outcome.Produces? then Min(|outcome.outputs|, outcome.failedPut) else 0;
      && |steps| == stored + 1
      && (forall i :: 0 <= i < stored ==> steps[i] == PutVariant(run, outcome.outputs[i].kind, outcome.outputs[i].ext))
      && steps[stored] == (
           if attempt.databaseDown then DropMedia(run)
           else if Succeeds(present, outcome) then Publish(run, cleanupId)
           else FailMedia(run, Retryable(present, outcome), cleanupId))
  {
  }

  function Puts(run: nat, outputs: seq<Output>): seq<Action> {
    seq(|outputs|, i requires 0 <= i < |outputs| => PutVariant(run, outputs[i].kind, outputs[i].ext))
  }

  ghost function DueMedia(db: Db, now: int): set<Uuid> {
    set id | id in db.jobs && MediaDue(db, id, now)
  }

  ghost function DueCleanup(db: Db, now: int): set<Uuid> {
    set id | id in db.cleanup && CleanupDue(db, id, now)
  }

  /** Budgets small enough for the 64-bit backoff shift. */
  ghost predicate BudgetsFit(db: Db) {
    && (forall j :: j in db.jobs ==> db.jobs[j].maxAttempts <= 30)
    && (forall c :: c in db.cleanup ==> db.cleanup[c].maxAttempts <= 29)
  }

  /** One media handler's effect: every other job keeps its row. */
  ghost predicate OthersUntouched(db: Db, db': Db, job: Uuid) {
    && db'.jobs.Keys == db.jobs.Keys
    && (forall j :: j in db.jobs && j != job ==> db'.jobs[j] == db.jobs[j])
    && (job in db.jobs ==> db'.jobs[job].maxAttempts == db.jobs[job].maxAttempts)
  }

  /** What finishing an attempt must leave behind: the job not claimable now, everyone else as before. */
  ghost predicate Settled(db: Db, db': Db, job: Uuid, now: int) {
    && OthersUntouched(db, db', job) && BudgetsFit(db') && !MediaDue(db', job, now)
  }

  lemma FailSettles(db: Db, now: int, job: Uuid, story: Uuid, retryable: bool, cleanupId: Uuid)
    requires BudgetsFit(db) && job in db.jobs && cleanupId !in db.cleanup
    ensures var r := T.FailMediaJob(db, now, job, story, retryable, cleanupId);
      r.Some? && Settled(db, r.value, job, now) && r.value.cleanup.Keys <= db.cleanup.Keys + {cleanupId}
  {
    FailRequeues(db, now, job, story, retryable, cleanupId);
    FailSchedules(db, now, job, story, retryable, cleanupId);
    hide T.FailMediaJob, MediaDue;
  }

  lemma FailRequeues(db: Db, now: int, job: Uuid, story: Uuid, retryable: bool, cleanupId: Uuid)
    requires BudgetsFit(db) && job in db.jobs
    ensures var r := T.FailMediaJob(db, now, job, story, retryable, cleanupId);
      r.Some? && OthersUntouched(db, r.value, job) && !MediaDue(r.value, job, now)
  {
    hide Backoff;
    MediaBackoffPositive(db.jobs[job].maxAttempts);
  }

  lemma FailSchedules(db: Db, now: int, job: Uuid, story: Uuid, retryable: bool, cleanupId: Uuid)
    requires job in db.jobs
    ensures var r := T.FailMediaJob(db, now, job, story, retryable, cleanupId);
      r.Some? && (r.value.cleanup == db.cleanup || exists keys :: r.value.cleanup == db.cleanup[cleanupId := NewCleanup(keys, now)])
  {
    hide Backoff;
  }

  lemma PublishSettles(db: Db, now: int, job: Uuid, story: Uuid, vs: seq<Variant>, lifetime: int, cleanupId: Uuid)
    requires BudgetsFit(db) && job in db.jobs && cleanupId !in db.cleanup
    ensures var r := T.PublishStory(db, now, job, story, vs, lifetime, cleanupId);
      r.Some? ==> Settled(db, r.value, job, now) && r.value.cleanup.Keys <= db.cleanup.Keys + {cleanupId}
  {
  }

  lemma ClaimSettles(db: Db, job: Uuid, owner: string, now: int, lease: int)
    requires BudgetsFit(db) && job in db.jobs && lease > 0
    ensures Settled(db, T.ClaimMediaJob(db, job, owner, now, lease), job, now)
  {
  }

  lemma SettledTwice(a: Db, b: Db, c: Db, job: Uuid, now: int)
    requires Settled(a, b, job, now) && Settled(b, c, job, now)
    ensures Settled(a, c, job, now)
  {
  }

  lemma BudgetsKept(db: Db, db': Db, job: Uuid, now: int)
    requires Settled(db, db', job, now)
    ensures BudgetsFit(db')
  {
  }

  lemma PathOne(w: World, step: Action)
    requires Enabled(w, step)
    ensures Path(w, [step], Apply(w, step))
  {
    assert Path(w, [], w);
    PathExtend(w, [], w, step);
    assert [] + [step] == [step];
  }

  lemma PathNone(w: World)
    ensures Path(w, [], w)
  {
  }

  /** Nothing was recorded: the claim's lease keeps the job away until it runs out. */
  lemma Unsettled(db: Db, job: Uuid, now: int)
    requires BudgetsFit(db) && !MediaDue(db, job, now)
    ensures Settled(db, db, job, now)
  {
  }

  lemma ScriptOf(run: nat, cleanupId: Uuid, attempt: Attempt)
    requires attempt.outcome.Produces?
    ensures var outputs, failedPut := attempt.outcome.outputs, attempt.outcome.failedPut;
      && Puts(run, outputs[..0]) == []
      && (failedPut < |outputs| ==>
           Script(run, cleanupId, true, attempt) == Puts(run, outputs[..failedPut]) + [FailEnd(run, true, cleanupId, attempt.databaseDown)])
      && (failedPut >= |outputs| ==>
           Script(run, cleanupId, true, attempt) ==
             Puts(run, outputs[..|outputs|]) + [if attempt.databaseDown then DropMedia(run) else Publish(run, cleanupId)])
  {
    assert attempt.outcome.outputs[..|attempt.outcome.outputs|] == attempt.outcome.outputs;
  }

  lemma PutsGrow(run: nat, outputs: seq<Output>, i: nat)
    requires i < |outputs|
    ensures Puts(run, outputs[..i + 1]) == Puts(run, outputs[..i]) + [PutVariant(run, outputs[i].kind, outputs[i].ext)]
  {
  }

  lemma PutEnabled(w: World, a: Action)
    requires a.PutVariant? && a.run in w.media
    ensures Enabled(w, a)
  {
  }

  lemma PutApplies(w: World, a: Action)
    requires Enabled(w, a) && a.PutVariant? && a.run in w.media
    ensures var v := Variant(a.kind, VariantKey(UuidText(w.media[a.run].story), a.kind.Name(), a.ext));
      && Apply(w, a) == w.(objects := w.objects + {v.key},
           media := w.media[a.run := w.media[a.run].(puts := w.media[a.run].puts + [v])])
      && v.key != ""
  {
  }

  lemma EndEnabled(w: World, a: Action)
    requires (a.DropMedia? && a.run in w.media) || (a.Publish? && a.run in w.media && a.cleanupId !in w.db.cleanup)
    ensures Enabled(w, a)
  {
  }

  lemma EndApplies(w: World, a: Action)
    requires Enabled(w, a) && (a.DropMedia? || a.Publish?) && a.run in w.media
    ensures Apply(w, a) == w.(media := w.media - {a.run},
      db := if a.DropMedia? then w.db else
            OrElse(T.PublishStory(w.db, w.now, w.media[a.run].job, w.media[a.run].story,
                                  w.media[a.run].puts, w.lifetime, a.cleanupId), w.db))
  {
  }

  /** Claiming is one protocol step; the handler starts with the frozen input's story and no outputs. */
  lemma ClaimMediaApplies(w: World, a: Action)
    requires a.ClaimMedia? && a.run !in w.media && MediaDue(w.db, a.job, w.now)
    ensures Enabled(w, a)
    ensures Apply(w, a) == w.(db := T.ClaimMediaJob(w.db, a.job, a.owner, w.now, a.lease),
              media := w.media[a.run := MediaRun(a.job, w.db.jobs[a.job].inputStory, [])])
  {
  }

  lemma SettledAway(db: Db, db': Db, job: Uuid, now: int)
    requires Settled(db, db', job, now)
    ensures !MediaDue(db', job, now)
  {
  }

  lemma SettledShrinks(db: Db, db': Db, job: Uuid, now: int)
    requires Settled(db, db', job, now)
    ensures DueMedia(db', now) == DueMedia(db, now) - {job}
  {
  }

  ghost function Elements(s: seq<Uuid>): set<Uuid> {
    set i | 0 <= i < |s| :: s[i]
  }

  ghost predicate Distinct(s: seq<Uuid>) {
    forall i, j :: 0 <= i < j < |s| ==> s[i] != s[j]
  }

  lemma NoElements()
    ensures Elements([]) == {} && Distinct([])
  {
  }

  lemma ElementsExtend(s: seq<Uuid>, x: Uuid)
    ensures Elements(s + [x]) == Elements(s) + {x}
    ensures Distinct(s) && x !in Elements(s) ==> Distinct(s + [x])
  {
    assert (s + [x])[|s|] == x;
    assert forall i :: 0 <= i < |s| ==> (s + [x])[i] == s[i];
  }

  // ------------------------------------------------------------- cleanup rows

  /** One cleanup handler's effect: its own row is not claimable now, everything else is as before. */
  ghost predicate SweptOne(db: Db, db': Db, job: Uuid, now: int) {
    && BudgetsFit(db') && !CleanupDue(db', job, now)
    && db' == db.(cleanup := db'.cleanup) && db'.cleanup.Keys == db.cleanup.Keys
    && (forall c :: c in db.cleanup && c != job ==> db'.cleanup[c] == db.cleanup[c])
    && (forall c :: c in db.cleanup ==>
         db'.cleanup[c].maxAttempts == db.cleanup[c].maxAttempts && db'.cleanup[c].keys == db.cleanup[c].keys)
  }

  lemma SweptTwice(a: Db, b: Db, c: Db, job: Uuid, now: int)
    requires SweptOne(a, b, job, now) && SweptOne(b, c, job, now)
    ensures SweptOne(a, c, job, now)
  {
  }

  lemma SweptShrinks(db: Db, db': Db, job: Uuid, now: int)
    requires SweptOne(db, db', job, now)
    ensures DueCleanup(db', now) == DueCleanup(db, now) - {job}
    ensures db'.cleanup.Keys == db.cleanup.Keys && BudgetsFit(db')
  {
  }

  lemma ClaimSweeps(db: Db, job: Uuid, owner: string, now: int, lease: int)
    requires BudgetsFit(db) && job in db.cleanup && lease > 0
    ensures SweptOne(db, T.ClaimCleanupJob(db, job, owner, now, lease), job, now)
  {
  }

  lemma CompleteSweeps(db: Db, job: Uuid, now: int)
    requires BudgetsFit(db) && job in db.cleanup
    ensures SweptOne(db, T.CompleteCleanupJob(db, job), job, now)
    ensures !CleanupDue(db, job, now) ==> SweptOne(db, db, job, now)
  {
  }

  lemma FailSweeps(db: Db, job: Uuid, now: int, attempts: nat, max: nat)
    requires BudgetsFit(db) && job in db.cleanup && max == db.cleanup[job].maxAttempts
    ensures SweptOne(db, T.FailCleanupJob(db, now, job, attempts, max), job, now)
  {
    hide Backoff;
    CleanupBackoffPositive(max);
  }

  lemma DueCleanupIs(db: Db, now: int)
    ensures forall id :: id in DueCleanup(db, now) <==> CleanupDue(db, id, now)
  {
  }

  lemma ClaimCleanupApplies(w: World, a: Action)
    requires a.ClaimCleanup? && a.run !in w.cleaners && CleanupDue(w.db, a.job, w.now)
    ensures Enabled(w, a)
    ensures var j := w.db.cleanup[a.job];
      Apply(w, a) == w.(db := T.ClaimCleanupJob(w.db, a.job, a.owner, w.now, a.lease),
        cleaners := w.cleaners[a.run := CleanupRun(a.job, j.attempts + 1, j.maxAttempts, j.keys)])
  {
  }

  ghost function WithoutObjects(w: World, run: nat, gone: set<string>): World
    requires run in w.cleaners
  {
    var c := w.cleaners[run];
    w.(objects := w.objects - gone, cleaners := w.cleaners[run := c.(todo := c.todo - gone)])
  }

  /** A backend delete of many keys is as many one-key steps. */
  lemma {:induction false} DeleteSteps(w: World, run: nat, gone: set<string>) returns (steps: seq<Action>)
    requires run in w.cleaners && gone <= w.cleaners[run].todo
    ensures Path(w, steps, WithoutObjects(w, run, gone))
    ensures forall i :: 0 <= i < |steps| ==> steps[i].DeleteObject?
    decreases |gone|
  {
    if gone == {} {
      steps := [];
      assert WithoutObjects(w, run, {}) == w by {
        assert w.objects - {} == w.objects;
        assert w.cleaners[run].todo - {} == w.cleaners[run].todo;
        assert w.cleaners[run := w.cleaners[run]] == w.cleaners;
      }
    } else {
      var k :| k in gone;
      var w1 := DeleteOne(w, run, k);
      var rest := DeleteSteps(w1, run, gone - {k});
      steps := [DeleteObject(run, k)] + rest;
      DeleteSplit(w, run, k, gone);
      PathOne(w, DeleteObject(run, k));
      PathJoin(w, [DeleteObject(run, k)], w1, rest, WithoutObjects(w, run, gone));
    }
  }

  lemma DeleteOne(w: World, run: nat, k: string) returns (w1: World)
    requires run in w.cleaners && k in w.cleaners[run].todo
    ensures Enabled(w, DeleteObject(run, k)) && w1 == Apply(w, DeleteObject(run, k)) == WithoutObjects(w, run, {k})
  {
    w1 := Apply(w, DeleteObject(run, k));
  }

  lemma DeleteSplit(w: World, run: nat, k: string, gone: set<string>)
    requires run in w.cleaners && k in gone
    ensures WithoutObjects(WithoutObjects(w, run, {k}), run, gone - {k}) == WithoutObjects(w, run, gone)
  {
    var c := w.cleaners[run];
    var w1 := WithoutObjects(w, run, {k});
    assert w1.objects - (gone - {k}) == w.objects - gone;
    assert w1.cleaners[run].todo - (gone - {k}) == c.todo - gone;
    assert WithoutObjects(w1, run, gone - {k}).cleaners == w.cleaners[run := c.(todo := c.todo - gone)];
  }

  lemma CleanupEndApplies(w: World, a: Action)
    requires a.CompleteCleanup? || a.FailCleanup? || a.DropCleanup?
    requires a.run in w.cleaners && (a.CompleteCleanup? ==> w.cleaners[a.run].todo == {})
    ensures Enabled(w, a)
    ensures var c := w.cleaners[a.run];
      Apply(w, a) == w.(cleaners := w.cleaners - {a.run},
        db := if a.CompleteCleanup? then T.CompleteCleanupJob(w.db, c.job)
              else if a.FailCleanup? then T.FailCleanupJob(w.db, w.now, c.job, c.attempts, c.max) else w.db)
  {
  }

  /** Which statements of a pass fail. */
  datatype Outages = Outages(reap: bool, expire: bool, collect: bool, purge: bool)

  function Tried(a: Action, down: bool): seq<Action> {
    if down then [] else [a]
  }

  /** What a pass does before it drains the backlog, in order. */
  function Statements(batch: map<Uuid, Uuid>, uploads: set<Uuid>, cleanupId: Uuid, retention: int, down: Outages): seq<Action> {
    Tried(Reap, down.reap) + Tried(Expire(batch), down.expire) + Tried(CollectUploads(uploads, cleanupId), down.collect)
    + Tried(Action.PurgeViews(retention), down.purge)
  }

  lemma StatementsAre(batch: map<Uuid, Uuid>, uploads: set<Uuid>, cleanupId: Uuid, retention: int, down: Outages)
    ensures [] + Tried(Reap, down.reap) + Tried(Expire(batch), down.expire) + Tried(CollectUploads(uploads, cleanupId), down.collect)
      + Tried(Action.PurgeViews(retention), down.purge) == Statements(batch, uploads, cleanupId, retention, down)
  {
  }

  lemma StatementsSpelled(batch: map<Uuid, Uuid>, uploads: set<Uuid>, cleanupId: Uuid, retention: int, down: Outages)
    ensures Statements(batch, uploads, cleanupId, retention, down) ==
      (if down.reap then [] else [Reap]) + (if down.expire then [] else [Expire(batch)])
      + (if down.collect then [] else [CollectUploads(uploads, cleanupId)])
      + (if down.purge then [] else [Action.PurgeViews(retention)])
  {
  }

  /** How a cleanup handler ends: unrecorded, completed or failed. */
  function CleanupEnd(run: nat, ok: bool, databaseDown: bool): Action {
    if databaseDown then DropCleanup(run) else if ok then CompleteCleanup(run) else FailCleanup(run)
  }

  lemma EndSweeps(run: nat, ok: bool, databaseDown: bool, retention: int)
    ensures SweepStep(CleanupEnd(run, ok, databaseDown), retention)
  {
  }

  /** The steps a cleanup pass is made of. */
  predicate SweepStep(a: Action, retention: int) {
    || a.Reap? || a.Expire? || a.CollectUploads? || (a.PurgeViews? && a.retention == retention)
    || a.ClaimCleanup? || a.DeleteObject? || a.CompleteCleanup? || a.FailCleanup? || a.DropCleanup?
  }

  ghost predicate Sweep(steps: seq<Action>, retention: int) {
    forall i :: 0 <= i < |steps| ==> SweepStep(steps[i], retention)
  }

  lemma SweepsKeepBudgets(w: World, a: Action)
    requires BudgetsFit(w.db) && Enabled(w, a)
    requires a.Reap? || a.Expire? || a.CollectUploads? || a.PurgeViews?
    ensures BudgetsFit(Apply(w, a).db)
    ensures Apply(w, a) == w.(db := Apply(w, a).db)
  {
  }

  lemma AlwaysEnabled(w: World, retention: int)
    ensures Enabled(w, Reap) && Enabled(w, Action.PurgeViews(retention))
  {
  }

  /** Reaping and expiring leave the rest of a pass's selection valid. */
  lemma SelectionStands(w: World, batch: map<Uuid, Uuid>, uploads: set<Uuid>, cleanupId: Uuid)
    requires Enabled(w, Expire(batch)) && Enabled(w, CollectUploads(uploads, cleanupId)) && cleanupId !in batch
    ensures Enabled(w, Reap) && Enabled(Apply(w, Reap), Expire(batch))
    ensures Enabled(Apply(w, Reap), CollectUploads(uploads, cleanupId))
    ensures Enabled(Apply(w, Expire(batch)), CollectUploads(uploads, cleanupId))
  {
  }

  class Worker {
    const store: S.Store
    const objects: O.MemoryStore
    const cfg: Config
    /** The protocol state this worker's tables and objects stand for. */
    ghost var world: World

    ghost predicate Valid()
      reads this, store, objects
    {
      && world.db == store.Rows()
      && world.objects == objects.objects.Keys
      && world.lifetime == cfg.lifetime
      && cfg.mediaLease > 0 && cfg.cleanupLease > 0
      && BudgetsFit(world.db)
    }

    constructor (store: S.Store, objects: O.MemoryStore, cfg: Config, ghost w: World)
      requires w.db == store.Rows() && w.objects == objects.objects.Keys && w.lifetime == cfg.lifetime
      requires cfg.mediaLease > 0 && cfg.cleanupLease > 0 && BudgetsFit(w.db)
      ensures Valid() && world == w && this.store == store && this.objects == objects && this.cfg == cfg
    {
      this.store, this.objects, this.cfg, world := store, objects, cfg, w;
    }

    /** Handler `run` is working on `id`, whose story is `story`. */
    ghost predicate Holds(run: nat, id: Uuid, story: Uuid, now: int)
      reads this
    {
      && run in world.media && world.media[run].job == id && world.media[run].story == story
      && id in world.db.jobs && world.now == now
    }

    // ------------------------------------------------------------ media jobs

    /** Records a failure, if the database is there to record it. */
    method FailMedia(now: int, id: Uuid, story: Uuid, retryable: bool, cleanupId: Uuid, databaseDown: bool, ghost run: nat)
      returns (ghost step: Action)
      requires Valid() && Holds(run, id, story, now) && !MediaDue(world.db, id, now) && cleanupId !in world.db.cleanup
      modifies this`world, store
      ensures step == FailEnd(run, retryable, cleanupId, databaseDown)
      ensures Valid() && Enabled(old(world), step) && world == Apply(old(world), step)
      ensures world.media == old(world.media) - {run} && world.now == now
      ensures Settled(old(world.db), world.db, id, now)
      ensures world.db.cleanup.Keys <= old(world.db.cleanup.Keys) + {cleanupId}
    {
      hide BudgetsFit, Settled, MediaDue;
      step := FailEnd(run, retryable, cleanupId, databaseDown);
      if databaseDown {
        EndEnabled(world, step);
        EndApplies(world, step);
        Unsettled(world.db, id, now);
      } else {
        FailSettles(world.db, now, id, story, retryable, cleanupId);
        var ok := store.FailMediaJob(now, id, story, retryable, cleanupId);
        BudgetsKept(world.db, store.Rows(), id, now);
      }
      world := Apply(world, step);
    }

    /** Puts every variant, then publishes; any failure on the way is recorded against the job. */
    method HandleMediaJob(now: int, id: Uuid, attempt: Attempt, cleanupId: Uuid, ghost run: nat)
      returns (ghost steps: seq<Action>)
      requires Valid() && id in store.jobs && Holds(run, id, store.jobs[id].inputStory, now)
      requires world.media[run].puts == [] && !MediaDue(world.db, id, now) && cleanupId !in world.db.cleanup
      modifies this`world, store, objects
      ensures Valid() && Path(old(world), steps, world)
      ensures steps == Script(run, cleanupId, old(store.jobs[id].inputKey) in old(objects.objects), attempt)
      ensures world.media == old(world.media) - {run} && world.now == now
      ensures Settled(old(world.db), world.db, id, now)
      ensures world.db.cleanup.Keys <= old(world.db.cleanup.Keys) + {cleanupId}
    {
      hide BudgetsFit, Settled, Enabled;
      var story, key := store.jobs[id].inputStory, store.jobs[id].inputKey;
      ghost var begun := world;
      if attempt.outcome.ScratchFails? {
        ghost var step := FailMedia(now, id, story, true, cleanupId, attempt.databaseDown, run);
        steps := [step];
        PathOne(begun, step);
        return;
      }
      var original := objects.Get(key);
      if original.None? || !attempt.outcome.Produces? {
        var retryable := attempt.outcome.DownloadFails? || attempt.outcome.Panics?
          || (attempt.outcome.ProcessFails? && attempt.outcome.retryable);
        ghost var step := FailMedia(now, id, story, original.Some? && retryable, cleanupId, attempt.databaseDown, run);
        steps := [step];
        PathOne(begun, step);
        return;
      }
      steps := HandleOutputs(now, id, story, attempt, cleanupId, run);
    }

    method HandleOutputs(now: int, id: Uuid, story: Uuid, attempt: Attempt, cleanupId: Uuid, ghost run: nat)
      returns (ghost steps: seq<Action>)
      requires Valid() && Holds(run, id, story, now) && attempt.outcome.Produces?
      requires world.media[run].puts == [] && !MediaDue(world.db, id, now) && cleanupId !in world.db.cleanup
      modifies this`world, store, objects
      ensures Valid() && Path(old(world), steps, world)
      ensures steps == Script(run, cleanupId, true, attempt)
      ensures world.media == old(world.media) - {run} && world.now == now
      ensures Settled(old(world.db), world.db, id, now)
      ensures world.db.cleanup.Keys <= old(world.db.cleanup.Keys) + {cleanupId}
    {
      hide BudgetsFit, Settled, Enabled, MediaDue, UuidText, VariantKey, T.PublishStory, T.FailMediaJob;
      hide Script, Puts, Path, Apply;
      ghost var begun := world;
      steps := [];
      PathNone(world);
      ScriptOf(run, cleanupId, attempt);
      var outputs, failedPut := attempt.outcome.outputs, attempt.outcome.failedPut;
      var variants: seq<Variant> := [];
      for i := 0 to |outputs|
        modifies this`world, store, objects
        invariant Valid() && Path(begun, steps, world)
        invariant steps == Puts(run, outputs[..i]) && i <= failedPut
        invariant world.db == begun.db && world.now == now && Holds(run, id, story, now)
        invariant world.media - {run} == begun.media - {run} && world.media[run].puts == variants
      {
        var v := outputs[i];
        var key := VariantKey(UuidText(story), v.kind.Name(), v.ext);
        if i == failedPut {
          ghost var last := world;
          ghost var step := FailMedia(now, id, story, true, cleanupId, attempt.databaseDown, run);
          PathExtend(begun, steps, last, step);
          steps := steps + [step];
          return;
        }
        var ok := objects.Put(key, v.data, |v.data|);
        ghost var put := PutVariant(run, v.kind, v.ext);
        PutEnabled(world, put);
        PathExtend(begun, steps, world, put);
        PutApplies(world, put);
        PutsGrow(run, outputs, i);
        steps := steps + [put];
        world := Apply(world, put);
        variants := variants + [Variant(v.kind, key)];
      }
      ghost var step := if attempt.databaseDown then DropMedia(run) else Publish(run, cleanupId);
      EndEnabled(world, step);
      PathExtend(begun, steps, world, step);
      EndApplies(world, step);
      steps := steps + [step];
      Unsettled(world.db, id, now);
      if !attempt.databaseDown {
        PublishSettles(world.db, now, id, story, variants, cfg.lifetime, cleanupId);
        var ok := store.PublishStory(now, id, story, variants, cfg.lifetime, cleanupId);
      }
      world := Apply(world, step);
      BudgetsKept(begun.db, world.db, id, now);
    }

    /** Handles one job at most; a claim that fails changes nothing. */
    method ProcessOneMediaJob(now: int, claimFails: bool, attempt: Attempt, cleanupId: Uuid, ghost run: nat)
      returns (result: Claim, ghost claimed: Uuid, ghost steps: seq<Action>)
      requires Valid() && world.now == now && run !in world.media && cleanupId !in world.db.cleanup
      modifies this`world, store, objects
      ensures Valid() && Path(old(world), steps, world) && world.media == old(world.media) && world.now == now
      ensures result == ClaimFailed <==> claimFails
      ensures result != Handled ==> world == old(world) && steps == []
      ensures result == NoneDue <==> !claimFails && DueMedia(old(world.db), now) == {}
      ensures result == Handled ==> claimed in DueMedia(old(world.db), now)
      ensures result == Handled ==> DueMedia(world.db, now) == DueMedia(old(world.db), now) - {claimed}
      ensures world.db.cleanup.Keys <= old(world.db.cleanup.Keys) + {cleanupId}
    {
      hide BudgetsFit, Settled, Enabled, MediaDue, Path, UuidText, VariantKey;
      ghost var begun := world;
      steps, claimed := [], 0;
      PathNone(world);
      if claimFails {
        return ClaimFailed, claimed, steps;
      }
      var r := store.ClaimMediaJob(cfg.owner, now, cfg.mediaLease);
      assert r.Some? ==> r.value in DueMedia(begun.db, now);
      if r.None? {
        return NoneDue, claimed, steps;
      }
      ghost var claim := ClaimMedia(run, r.value, cfg.owner, cfg.mediaLease);
      ClaimMediaApplies(world, claim);
      PathOne(world, claim);
      ClaimSettles(world.db, r.value, cfg.owner, now, cfg.mediaLease);
      world := Apply(world, claim);
      BudgetsKept(begun.db, world.db, r.value, now);
      SettledAway(begun.db, world.db, r.value, now);
      ghost var mid := world;
      ghost var more := HandleMediaJob(now, r.value, attempt, cleanupId, run);
      result, claimed, steps := Handled, r.value, [claim] + more;
      PathJoin(begun, [claim], mid, more, world);
      SettledTwice(begun.db, mid.db, world.db, r.value, now);
      SettledShrinks(begun.db, world.db, r.value, now);
      assert mid.media - {run} == begun.media;
    }

    /**
     * The claim loop of a run to completion at one instant. It claims every due job exactly once unless the
     * cap, or the first signal that is not to proceed, stops it before.
     */
    method RunMediaOnce(now: int, maxJobs: int, signals: nat -> Signal, ids: seq<Uuid>, ghost run: nat)
      returns (processed: nat, err: bool, ghost claimed: seq<Uuid>, ghost steps: seq<Action>)
      requires Valid() && world.now == now && run !in world.media
      requires |DueMedia(world.db, now)| < |ids|
      requires forall i :: 0 <= i < |ids| ==> ids[i] !in world.db.cleanup
      requires forall i, j :: 0 <= i < j < |ids| ==> ids[i] != ids[j]
      modifies this`world, store, objects
      ensures Valid() && Path(old(world), steps, world)
      ensures |claimed| == processed && Distinct(claimed)
      ensures Elements(claimed) <= DueMedia(old(world.db), now)
      ensures DueMedia(world.db, now) == DueMedia(old(world.db), now) - Elements(claimed)
      ensures maxJobs > 0 ==> processed <= maxJobs
      ensures forall i :: 0 <= i < processed ==> signals(i) == Proceed
      ensures maxJobs <= 0 || processed < maxJobs ==> DueMedia(world.db, now) == {} || signals(processed) != Proceed
      ensures err <==> (maxJobs <= 0 || processed < maxJobs) && signals(processed) in {Cancelled, ClaimFails}
      ensures processed + |DueMedia(world.db, now)| == |DueMedia(old(world.db), now)|
    {
      hide BudgetsFit, Settled, Enabled, Path, DueMedia, Elements, Distinct;
      ghost var due := DueMedia(world.db, now);
      ghost var begun := world;
      processed, err, claimed, steps := 0, false, [], [];
      PathNone(world);
      NoElements();
      while maxJobs <= 0 || processed < maxJobs
        invariant Valid() && Path(begun, steps, world) && world.now == now && run !in world.media
        invariant |claimed| == processed && Distinct(claimed) && Elements(claimed) <= due && !err
        invariant DueMedia(world.db, now) == due - Elements(claimed)
        invariant processed + |DueMedia(world.db, now)| == |due|
        invariant forall i :: processed <= i < |ids| ==> ids[i] !in world.db.cleanup
        invariant forall i :: 0 <= i < processed ==> signals(i) == Proceed
        invariant maxJobs > 0 ==> processed <= maxJobs
        decreases |DueMedia(world.db, now)|
      {
        if signals(processed) == Cancelled {
          err := true;
          break;
        }
        if signals(processed) == DeadlinePassed {
          break;
        }
        var attempt: Attempt := *;
        ghost var mid := world;
        var result;
        ghost var id, more;
        result, id, more := ProcessOneMediaJob(now, signals(processed) == ClaimFails, attempt, ids[processed], run);
        PathJoin(begun, steps, mid, more, world);
        steps := steps + more;
        if result == ClaimFailed {
          err := true;
          break;
        }
        if result == NoneDue {
          break;
        }
        ElementsExtend(claimed, id);
        claimed := claimed + [id];
        processed := processed + 1;
      }
    }

    // ---------------------------------------------------------- cleanup jobs

    /** Claims and handles one delete_objects job; the backend may fail part-way, the database after it. */
    method ProcessOneCleanupJob(now: int, claimFails: bool, ghost run: nat)
      returns (result: Claim, ghost claimed: Uuid, ghost steps: seq<Action>)
      requires Valid() && world.now == now && run !in world.cleaners
      modifies this`world, store, objects
      ensures Valid() && Path(old(world), steps, world) && Sweep(steps, cfg.retention)
      ensures world.cleaners == old(world.cleaners) && world.now == now
      ensures result == ClaimFailed <==> claimFails
      ensures result != Handled ==> world == old(world) && steps == []
      ensures result == NoneDue <==> !claimFails && DueCleanup(old(world.db), now) == {}
      ensures result == Handled ==> claimed in DueCleanup(old(world.db), now)
      ensures result == Handled ==> DueCleanup(world.db, now) == DueCleanup(old(world.db), now) - {claimed}
    {
      hide BudgetsFit, SweptOne, Enabled, Path, DueCleanup, Apply;
      ghost var begun := world;
      DueCleanupIs(world.db, now);
      steps, claimed := [], 0;
      PathNone(world);
      if claimFails {
        return ClaimFailed, claimed, steps;
      }
      var r := store.ClaimCleanupJob(cfg.owner, now, cfg.cleanupLease);
      if r.None? {
        return NoneDue, claimed, steps;
      }
      var id := r.value;
      ghost var claim := ClaimCleanup(run, id, cfg.owner, cfg.cleanupLease);
      ClaimCleanupApplies(world, claim);
      PathOne(world, claim);
      ClaimSweeps(world.db, id, cfg.owner, now, cfg.cleanupLease);
      world := Apply(world, claim);
      SweptShrinks(begun.db, world.db, id, now);
      ghost var mid := world;
      var stop: nat, databaseDown: bool := *, *;
      ghost var more := HandleCleanupJob(now, id, store.cleanup[id].attempts, store.cleanup[id].maxAttempts,
                                         store.cleanup[id].keys, stop, databaseDown, run);
      result, claimed, steps := Handled, id, [claim] + more;
      PathJoin(begun, [claim], mid, more, world);
      SweptTwice(begun.db, mid.db, world.db, id, now);
      SweptShrinks(begun.db, world.db, id, now);
      assert mid.cleaners - {run} == begun.cleaners;
    }

    /** A backend that gives up after `stop` keys fails the job exactly if that is too few. */
    method HandleCleanupJob(now: int, id: Uuid, attempts: nat, max: nat, keys: set<string>, stop: nat, databaseDown: bool, ghost run: nat)
      returns (ghost steps: seq<Action>)
      requires Valid() && world.now == now && run in world.cleaners && id in world.db.cleanup
      requires world.cleaners[run] == CleanupRun(id, attempts, max, keys) && max == world.db.cleanup[id].maxAttempts
      requires !CleanupDue(world.db, id, now)
      modifies this`world, store, objects
      ensures Valid() && Path(old(world), steps, world) && Sweep(steps, cfg.retention)
      ensures steps != [] && steps[|steps| - 1] ==
        if databaseDown then DropCleanup(run) else if |keys| <= stop then CompleteCleanup(run) else FailCleanup(run)
      ensures world.cleaners == old(world.cleaners) - {run} && world.now == now
      ensures SweptOne(old(world.db), world.db, id, now)
    {
      hide BudgetsFit, SweptOne, Enabled, Path, CleanupDue, DueCleanup, Apply;
      ghost var begun := world;
      var ok;
      ghost var left;
      ok, left, steps := DeleteObjects(now, keys, stop, run);
      ghost var mid := world;
      ghost var end := EndCleanup(now, id, attempts, max, ok, databaseDown, run);
      PathOne(mid, end);
      PathJoin(begun, steps, mid, [end], world);
      EndSweeps(run, ok, databaseDown, cfg.retention);
      steps := steps + [end];
      assert mid.cleaners - {run} == begun.cleaners - {run};
    }

    /** The backend's deletion as the handler sees it: one step for every key that goes. */
    method DeleteObjects(now: int, keys: set<string>, stop: nat, ghost run: nat)
      returns (ok: bool, ghost left: set<string>, ghost steps: seq<Action>)
      requires Valid() && world.now == now && run in world.cleaners && world.cleaners[run].todo == keys
      modifies this`world, objects
      ensures Valid() && Path(old(world), steps, world) && Sweep(steps, cfg.retention)
      ensures ok == (|keys| <= stop) && world.db == old(world.db) && world.now == now
      ensures (ok ==> left == {}) && world.cleaners == old(world.cleaners[run := world.cleaners[run].(todo := left)])
    {
      hide BudgetsFit, Enabled, Path;
      ghost var begun := world;
      var kept;
      ok, kept := objects.Delete(keys, stop);
      left := kept;
      steps := DeleteSteps(world, run, keys - left);
      world := WithoutObjects(world, run, keys - left);
      assert keys - (keys - left) == left;
      assert world.cleaners == begun.cleaners[run := begun.cleaners[run].(todo := left)];
    }

    /** Records how the deletion went, if the database is there to record it. */
    method EndCleanup(now: int, id: Uuid, attempts: nat, max: nat, ok: bool, databaseDown: bool, ghost run: nat)
      returns (ghost end: Action)
      requires Valid() && world.now == now && run in world.cleaners && id in world.db.cleanup
      requires var c := world.cleaners[run]; c == CleanupRun(id, attempts, max, c.todo) && max == world.db.cleanup[id].maxAttempts && (ok ==> c.todo == {})
      requires !CleanupDue(world.db, id, now)
      modifies this`world, store
      ensures Valid() && end == CleanupEnd(run, ok, databaseDown) && Enabled(old(world), end) && world == Apply(old(world), end)
      ensures world.cleaners == old(world.cleaners) - {run} && world.now == now
      ensures SweptOne(old(world.db), world.db, id, now)
    {
      hide BudgetsFit, SweptOne, Enabled, CleanupDue, Apply, T.CompleteCleanupJob, T.FailCleanupJob;
      ghost var before := world;
      end := CleanupEnd(run, ok, databaseDown);
      CleanupEndApplies(world, end);
      CompleteSweeps(world.db, id, now);
      FailSweeps(world.db, id, now, attempts, max);
      if !databaseDown {
        if ok {
          store.CompleteCleanupJob(id);
        } else {
          store.FailCleanupJob(now, id, attempts, max);
        }
      }
      world := Apply(world, end);
      SweptShrinks(before.db, world.db, id, now);
    }

    /**
     * Drains the backlog at one instant, without a deadline: every due job is claimed exactly once, unless a cancellation or a
     * failing claim ends the loop before.
     */
    method DrainCleanupJobs(now: int, signals: nat -> Signal, ghost run: nat)
      returns (ghost claimed: seq<Uuid>, ghost steps: seq<Action>)
      requires Valid() && world.now == now && run !in world.cleaners
      modifies this`world, store, objects
      ensures Valid() && Path(old(world), steps, world) && Sweep(steps, cfg.retention)
      ensures world.cleaners == old(world.cleaners) && world.now == now
      ensures Distinct(claimed) && Elements(claimed) <= DueCleanup(old(world.db), now)
      ensures DueCleanup(world.db, now) == DueCleanup(old(world.db), now) - Elements(claimed)
      ensures forall i :: 0 <= i < |claimed| ==> signals(i) !in {Cancelled, ClaimFails}
      ensures DueCleanup(world.db, now) == {} || signals(|claimed|) in {Cancelled, ClaimFails}
    {
      hide BudgetsFit, SweptOne, Enabled, Path;
      ghost var begun := world;
      ghost var due := DueCleanup(world.db, now);
      var handled: nat := 0;
      claimed, steps := [], [];
      PathNone(world);
      while signals(handled) != Cancelled
        invariant Valid() && Path(begun, steps, world) && Sweep(steps, cfg.retention) && world.now == now
        invariant world.cleaners == begun.cleaners && |claimed| == handled
        invariant Distinct(claimed) && Elements(claimed) <= due
        invariant DueCleanup(world.db, now) == due - Elements(claimed)
        invariant forall i :: 0 <= i < handled ==> signals(i) !in {Cancelled, ClaimFails}
        decreases DueCleanup(world.db, now)
      {
        ghost var mid := world;
        var result;
        ghost var id, more;
        result, id, more := ProcessOneCleanupJob(now, signals(handled) == ClaimFails, run);
        PathJoin(begun, steps, mid, more, world);
        steps := steps + more;
        if result != Handled {
          break;
        }
        ElementsExtend(claimed, id);
        claimed := claimed + [id];
        handled := handled + 1;
      }
    }

    /** One statement of a pass; it may fail, which is logged and leaves the tables alone. */
    method TrySweep(now: int, a: Action, down: bool, ghost begun: World, ghost steps: seq<Action>) returns (ghost steps': seq<Action>)
      requires Valid() && world.now == now && Path(begun, steps, world) && Sweep(steps, cfg.retention)
      requires Enabled(world, a) && SweepStep(a, cfg.retention)
      requires a.Reap? || a.Expire? || a.CollectUploads? || a.PurgeViews?
      modifies this`world, store
      ensures Valid() && Path(begun, steps', world) && Sweep(steps', cfg.retention)
      ensures steps' == steps + Tried(a, down)
      ensures world == if down then old(world) else Apply(old(world), a)
      ensures world == old(world).(db := world.db)
    {
      hide Path, BudgetsFit;
      if down {
        return steps;
      }
      match a {
        case Reap => store.ReapExpiredLeases(now);
        case Expire(batch) => store.ExpireStories(now, batch);
        case CollectUploads(due, cleanupId) => store.GCAbandonedUploads(now, due, cleanupId);
        case PurgeViews(retention) => store.PurgeViews(now, retention);
      }
      PathExtend(begun, steps, world, a);
      SweepsKeepBudgets(world, a);
      steps' := steps + [a];
      world := Apply(world, a);
    }

    /** The statements of a pass: each whose flag in `down` is set fails and is skipped, the others take effect in order. */
    method SweepTables(now: int, batch: map<Uuid, Uuid>, uploads: set<Uuid>, cleanupId: Uuid, down: Outages)
      returns (ghost steps: seq<Action>)
      requires Valid() && world.now == now
      requires Enabled(world, Expire(batch)) && Enabled(world, CollectUploads(uploads, cleanupId)) && cleanupId !in batch
      modifies this`world, store
      ensures Valid() && Path(old(world), steps, world) && Sweep(steps, cfg.retention)
      ensures steps == Statements(batch, uploads, cleanupId, cfg.retention, down)
      ensures steps ==
        (if down.reap then [] else [Reap]) + (if down.expire then [] else [Expire(batch)])
        + (if down.collect then [] else [CollectUploads(uploads, cleanupId)])
        + (if down.purge then [] else [Action.PurgeViews(cfg.retention)])
      ensures world == old(world).(db := world.db)
    {
      hide BudgetsFit, Path, Enabled, Apply, Tried;
      ghost var begun := world;
      PathNone(world);
      AlwaysEnabled(world, cfg.retention);
      SelectionStands(world, batch, uploads, cleanupId);
      steps := TrySweep(now, Reap, down.reap, begun, []);
      SelectionStands(world, batch, uploads, cleanupId);
      steps := TrySweep(now, Expire(batch), down.expire, begun, steps);
      steps := TrySweep(now, CollectUploads(uploads, cleanupId), down.collect, begun, steps);
      AlwaysEnabled(world, cfg.retention);
      steps := TrySweep(now, Action.PurgeViews(cfg.retention), down.purge, begun, steps);
      StatementsAre(batch, uploads, cleanupId, cfg.retention, down);
      StatementsSpelled(batch, uploads, cleanupId, cfg.retention, down);
    }

    /**
     * A whole cleanup pass. `batch` and `uploads` are what the two sweeps select. Whatever of it fails, the backlog
     * is drained regardless, until `signals` ends it.
     */
    method RunCleanupPass(now: int, batch: map<Uuid, Uuid>, uploads: set<Uuid>, cleanupId: Uuid, down: Outages,
                          signals: nat -> Signal, ghost run: nat)
      returns (ghost claimed: seq<Uuid>, ghost steps: seq<Action>)
      requires Valid() && world.now == now && run !in world.cleaners
      requires Enabled(world, Expire(batch)) && Enabled(world, CollectUploads(uploads, cleanupId)) && cleanupId !in batch
      modifies this`world, store, objects
      ensures Valid() && Path(old(world), steps, world) && Sweep(steps, cfg.retention)
      ensures Statements(batch, uploads, cleanupId, cfg.retention, down) <= steps
      ensures world.now == now && Distinct(claimed)
      ensures forall i :: 0 <= i < |claimed| ==> signals(i) !in {Cancelled, ClaimFails}
      ensures DueCleanup(world.db, now) == {} || signals(|claimed|) in {Cancelled, ClaimFails}
    {
      hide BudgetsFit, Path, Enabled, Statements, DueCleanup, Distinct, Elements;
      ghost var begun := world;
      steps := SweepTables(now, batch, uploads, cleanupId, down);
      ghost var mid := world;
      ghost var more;
      claimed, more := DrainCleanupJobs(now, signals, run);
      PathJoin(begun, steps, mid, more, world);
      steps := steps + more;
    }
  }
}
