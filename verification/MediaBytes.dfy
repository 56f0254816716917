/** Whose bytes are behind a media key: keys are deterministic, so every attempt of a story writes the same ones. */
module MediaBytes {
  import opened Options
  import opened Numbers
  import opened ObjectKeys
  import opened Tables
  import opened PipelineInvariant
  import opened PipelineSteps
  import opened PipelineSafety
  import opened Protocol
  import opened ShortRun
  import OM = OrphanedMedia
  import PT = PipelineTheorems
  import T = Transactions

  /** The step stores bytes under the media key. */
  ghost predicate Writes(w: World, a: Action, key: string) {
    a.PutVariant? && a.run in w.media && VariantKey(UuidText(w.media[a.run].story), a.kind.Name(), a.ext) == key
  }

  /** Who wrote the bytes behind the key last, once the step is taken. */
  ghost function LastWriter(w: World, a: Action, key: string, before: Option<nat>): Option<nat> {
    if Writes(w, a, key) then Some(a.run) else before
  }

  /** Some step of the run stores bytes under the key. */
  ghost predicate Rewritten(w: World, steps: seq<Action>, w': World, key: string)
    requires Path(w, steps, w')
    decreases |steps|
  {
    steps != [] && (Writes(w, steps[0], key) || Rewritten(Apply(w, steps[0]), steps[1..], w', key))
  }

  /** The handler whose bytes are behind the key at the end of the run, if they were `before`'s at its start. */
  ghost function Writer(w: World, steps: seq<Action>, w': World, key: string, before: Option<nat>): Option<nat>
    requires Path(w, steps, w')
    decreases |steps|
  {
    if steps == [] then before
    else Writer(Apply(w, steps[0]), steps[1..], w', key, LastWriter(w, steps[0], key, before))
  }

  /** No handler but `run` is working on the story. */
  ghost predicate Sole(w: World, story: Uuid, run: nat) {
    forall r :: r in w.media && w.media[r].story == story ==> r == run
  }

  ghost predicate Idle(w: World, story: Uuid) {
    forall r :: r in w.media ==> w.media[r].story != story
  }

  /** No handler is working on the story, and its job can never be claimed again. */
  ghost predicate AtRest(w: World, story: Uuid) {
    && story in w.db.stories && w.db.stories[story].job in w.db.jobs
    && var state := w.db.jobs[w.db.stories[story].job].state;
       (state.Succeeded? || state.Failed?) && Idle(w, story)
  }

  // ------------------------------------------------------------ what a step may do

  predicate Ends(a: Action, run: nat) {
    (a.Publish? || a.FailMedia? || a.DropMedia?) && a.run == run
  }

  /** The steps that may write the row of a media job. */
  ghost predicate Touches(w: World, a: Action, job: Uuid) {
    || (a.ClaimMedia? && a.job == job)
    || ((a.Publish? || a.FailMedia?) && a.run in w.media && w.media[a.run].job == job)
    || (a.Reap? && job in w.db.jobs
        && T.Reapable(w.db.jobs[job].state, w.db.jobs[job].attempts, w.db.jobs[job].maxAttempts, w.now))
  }

  lemma PublishLeavesJob(w: World, a: Action, job: Uuid)
    requires Enabled(w, a) && job in w.db.jobs && !Touches(w, a, job) && a.Publish?
    ensures job in Apply(w, a).db.jobs && Apply(w, a).db.jobs[job] == w.db.jobs[job]
  {
    hide T.UpsertVariants, OriginalOf;
  }

  lemma FailLeavesJob(w: World, a: Action, job: Uuid)
    requires Enabled(w, a) && job in w.db.jobs && !Touches(w, a, job) && a.FailMedia?
    ensures job in Apply(w, a).db.jobs && Apply(w, a).db.jobs[job] == w.db.jobs[job]
  {
    hide Backoff, OriginalOf;
  }

  lemma WorkersLeaveJob(w: World, a: Action, job: Uuid)
    requires Enabled(w, a) && job in w.db.jobs && !Touches(w, a, job)
    requires a.ClaimMedia? || a.PutVariant? || a.DropMedia?
    ensures job in Apply(w, a).db.jobs && Apply(w, a).db.jobs[job] == w.db.jobs[job]
  {
    hide VariantKey, UuidText;
  }

  lemma CleanersLeaveJob(w: World, a: Action, job: Uuid)
    requires Enabled(w, a) && job in w.db.jobs
    requires a.ClaimCleanup? || a.DeleteObject? || a.CompleteCleanup? || a.FailCleanup? || a.DropCleanup?
    ensures job in Apply(w, a).db.jobs && Apply(w, a).db.jobs[job] == w.db.jobs[job]
  {
    hide Backoff;
  }

  lemma OthersLeaveJob(w: World, a: Action, job: Uuid)
    requires Enabled(w, a) && job in w.db.jobs && !Touches(w, a, job)
    requires !(a.ClaimMedia? || a.PutVariant? || a.Publish? || a.FailMedia? || a.DropMedia?)
    requires !(a.ClaimCleanup? || a.DeleteObject? || a.CompleteCleanup? || a.FailCleanup? || a.DropCleanup?)
    ensures job in Apply(w, a).db.jobs && Apply(w, a).db.jobs[job] == w.db.jobs[job]
  {
    hide T.ExpiryKeys, VariantKeys;
  }

  lemma JobLeft(w: World, a: Action, job: Uuid)
    requires Enabled(w, a) && job in w.db.jobs && !Touches(w, a, job)
    ensures job in Apply(w, a).db.jobs && Apply(w, a).db.jobs[job] == w.db.jobs[job]
  {
    if a.Publish? {
      PublishLeavesJob(w, a, job);
    } else if a.FailMedia? {
      FailLeavesJob(w, a, job);
    } else if a.ClaimMedia? || a.PutVariant? || a.DropMedia? {
      WorkersLeaveJob(w, a, job);
    } else if a.ClaimCleanup? || a.DeleteObject? || a.CompleteCleanup? || a.FailCleanup? || a.DropCleanup? {
      CleanersLeaveJob(w, a, job);
    } else {
      OthersLeaveJob(w, a, job);
    }
    hide Enabled, Apply, Touches;
  }

  /** Handlers come by claims only, go by ending, and collect their own outputs. */
  lemma HandlersLeft(w: World, a: Action, r: nat)
    requires Enabled(w, a)
    ensures r in Apply(w, a).media && !(a.ClaimMedia? && a.run == r) ==>
      r in w.media && Apply(w, a).media[r].job == w.media[r].job && Apply(w, a).media[r].story == w.media[r].story
    ensures r in w.media && !Ends(a, r) ==> r in Apply(w, a).media
    ensures r in w.media && r in Apply(w, a).media && !(a.PutVariant? && a.run == r) ==> Apply(w, a).media[r] == w.media[r]
  {
    hide T.PublishStory, T.FailMediaJob, T.ExpireStories, T.DeleteStory, T.GCAbandonedUploads, T.ReapExpiredLeases, T.PurgeViews,
      T.FailCleanupJob, T.RecordView, T.AcknowledgeView, T.FinalizeUpload, VariantKey, UuidText;
  }

  /** One job, one story. */
  lemma JobOfStory(w: World, story: Uuid)
    requires Inv(w) && story in w.db.stories
    ensures w.db.stories[story].job in w.db.jobs
    ensures forall j :: j in w.db.jobs ==> (w.db.jobs[j].inputStory == story <==> j == w.db.stories[story].job)
    ensures forall r :: r in w.media ==>
      w.media[r].job in w.db.jobs && (w.media[r].story == story <==> w.media[r].job == w.db.stories[story].job)
  {
    OM.InvParts(w);
    assert StoryLinked(w.db, story);
    forall j | j in w.db.jobs
      ensures w.db.jobs[j].inputStory == story <==> j == w.db.stories[story].job
    {
      assert JobLinked(w.db, j);
    }
    forall r | r in w.media
      ensures w.media[r].job in w.db.jobs && (w.media[r].story == story <==> w.media[r].job == w.db.stories[story].job)
    {
      assert RunBacked(w, w.media[r]);
    }
  }

  lemma RunHasStory(w: World, run: nat)
    requires Inv(w) && run in w.media
    ensures w.media[run].story in w.db.stories
  {
    assert RunBacked(w, w.media[run]);
  }

  lemma JobStays(w: World, a: Action, story: Uuid)
    requires Inv(w) && Enabled(w, a) && story in w.db.stories
    ensures story in Apply(w, a).db.stories && Apply(w, a).db.stories[story].job == w.db.stories[story].job
  {
    StepKept(w, a);
    PT.StoryEvolved(w.db, Apply(w, a).db, story);
  }

  // ------------------------------------------------------------------ at rest

  lemma RestStays(w: World, a: Action, story: Uuid)
    requires Inv(w) && Enabled(w, a) && AtRest(w, story)
    ensures AtRest(Apply(w, a), story)
  {
    var job := w.db.stories[story].job;
    JobOfStory(w, story);
    JobStays(w, a, story);
    assert !Touches(w, a, job);
    JobLeft(w, a, job);
    forall r
      ensures r in Apply(w, a).media ==> Apply(w, a).media[r].story != story
    {
      ClaimedFor(w, a);
      HandlersLeft(w, a, r);
    }
    hide Inv, Enabled, Apply, Touches;
  }

  lemma ClaimedFor(w: World, a: Action)
    requires Enabled(w, a)
    ensures a.ClaimMedia? ==>
      && MediaDue(w.db, a.job, w.now) && a.run !in w.media
      && Apply(w, a).media == w.media[a.run := MediaRun(a.job, w.db.jobs[a.job].inputStory, [])]
      && Apply(w, a).db == T.ClaimMediaJob(w.db, a.job, a.owner, w.now, a.lease)
  {
  }

  lemma WritersWork(w: World, a: Action, story: Uuid, key: string)
    requires StoryKey(story, key) && Writes(w, a, key)
    ensures w.media[a.run].story == story
  {
    KeySpacesDisjoint(story, key);
    assert StoryKey(w.media[a.run].story, key);
  }

  lemma {:induction false} RestIsQuiet(w: World, steps: seq<Action>, w': World, story: Uuid, key: string)
    requires Inv(w) && Path(w, steps, w') && AtRest(w, story) && StoryKey(story, key)
    ensures !Rewritten(w, steps, w', key)
    decreases |steps|
  {
    hide Inv, Evolves, StoryKey;
    if steps != [] {
      StepKept(w, steps[0]);
      RestStays(w, steps[0], story);
      if Writes(w, steps[0], key) {
        WritersWork(w, steps[0], story, key);
        assert false;
      }
      hide AtRest, Writes;
      RestIsQuiet(Apply(w, steps[0]), steps[1..], w', story, key);
    }
  }

  lemma HandlerRewrites(w: World, run: nat, key: string) returns (steps: seq<Action>, w': World)
    requires run in w.media && StoryKey(w.media[run].story, key)
    ensures Path(w, steps, w') && Rewritten(w, steps, w', key)
  {
    var kind: VariantKind, ext: string :| key == VariantKey(UuidText(w.media[run].story), kind.Name(), ext);
    var put := PutVariant(run, kind, ext);
    assert Enabled(w, put) && Writes(w, put, key);
    steps, w' := [put], Apply(w, put);
    assert Path(w', [], w');
    hide VariantKey, UuidText;
    assert Path(w, [put], w');
  }

  lemma RewrittenLater(w: World, a: Action, steps: seq<Action>, w': World, key: string)
    requires Enabled(w, a) && Path(Apply(w, a), steps, w') && Rewritten(Apply(w, a), steps, w', key)
    ensures Path(w, [a] + steps, w') && Rewritten(w, [a] + steps, w', key)
  {
    assert ([a] + steps)[1..] == steps;
    hide Enabled, Apply, Writes;
  }

  /** A job that is queued or leased can be claimed at some time. */
  lemma ClaimRewrites(w: World, job: Uuid, key: string) returns (steps: seq<Action>, w': World)
    requires job in w.db.jobs && StoryKey(w.db.jobs[job].inputStory, key)
    requires w.db.jobs[job].state.Queued? || w.db.jobs[job].state.Leased?
    ensures Path(w, steps, w') && Rewritten(w, steps, w', key)
  {
    var j := w.db.jobs[job];
    var run := Above(w.media.Keys);
    var to := Max(w.now, Max(j.runAfter, if j.state.Leased? then j.state.until + 1 else 0));
    var later := w.(now := to);
    assert Enabled(w, Tick(to)) && Apply(w, Tick(to)) == later;
    var claim := ClaimMedia(run, job, "", 1);
    assert Enabled(later, claim);
    ClaimedFor(later, claim);
    hide StoryKey, Enabled, Apply, Path, Rewritten;
    steps, w' := HandlerRewrites(Apply(later, claim), run, key);
    RewrittenLater(later, claim, steps, w', key);
    steps := [claim] + steps;
    RewrittenLater(w, Tick(to), steps, w', key);
    steps := [Tick(to)] + steps;
  }

  ghost predicate StandsForGood(w: World, key: string) {
    forall steps, w' {:trigger Path(w, steps, w')} :: Path(w, steps, w') ==> !Rewritten(w, steps, w', key)
  }

  /**
   * In every reachable state the bytes behind a story's media key can never be written again exactly if no handler
   * is working on the story and its job has succeeded or failed.
   */
  lemma BytesStandExactly(w: World, story: Uuid, key: string)
    requires Reachable(w) && story in w.db.stories && StoryKey(story, key)
    ensures StandsForGood(w, key) <==> AtRest(w, story)
  {
    PT.ReachableInv(w);
    JobOfStory(w, story);
    hide Inv, StoryKey, Reachable;
    var job := w.db.stories[story].job;
    if AtRest(w, story) {
      forall steps, w' | Path(w, steps, w')
        ensures !Rewritten(w, steps, w', key)
      {
        RestIsQuiet(w, steps, w', story, key);
      }
    } else if !Idle(w, story) {
      var r :| r in w.media && w.media[r].story == story;
      var steps, w' := HandlerRewrites(w, r, key);
      assert Path(w, steps, w');
    } else {
      assert w.db.jobs[job].inputStory == story;
      var steps, w' := ClaimRewrites(w, job, key);
      assert Path(w, steps, w');
    }
  }

  // -------------------------------------------------------------- publication

  lemma PublicationEnds(w: World, run: nat, cleanupId: Uuid)
    requires Enabled(w, Publish(run, cleanupId)) && w.media[run].job in w.db.jobs
    requires w.media[run].story in w.db.stories && w.db.stories[w.media[run].story].state.Processing?
    ensures var w' := Apply(w, Publish(run, cleanupId));
      && w'.media == w.media - {run} && w.media[run].job in w'.db.jobs
      && w'.db.jobs[w.media[run].job].state.Succeeded?
      && w.media[run].story in w'.db.stories && w'.db.stories[w.media[run].story].state.Published?
  {
    hide T.UpsertVariants;
  }

  /**
   * At the moment of publication, the bytes behind all the story's keys are settled exactly if the publishing
   * handler is the only one working on the story: a worker that has overrun its lease may still replace them.
   */
  lemma PublicationSettlesExactly(w: World, run: nat, cleanupId: Uuid)
    requires Reachable(w) && Enabled(w, Publish(run, cleanupId))
    ensures w.media[run].story in w.db.stories
    ensures w.db.stories[w.media[run].story].state.Processing? ==>
      (AtRest(Apply(w, Publish(run, cleanupId)), w.media[run].story) <==> Sole(w, w.media[run].story, run))
  {
    var story := w.media[run].story;
    PT.ReachableInv(w);
    RunHasStory(w, run);
    JobOfStory(w, story);
    if w.db.stories[story].state.Processing? {
      PublicationEnds(w, run, cleanupId);
      JobStays(w, Publish(run, cleanupId), story);
      hide Inv, Reachable, Enabled, Apply;
      var w' := Apply(w, Publish(run, cleanupId));
      assert forall r :: r in w'.media <==> r in w.media && r != run;
      assert w'.db.stories[story].job == w.media[run].job;
    }
  }

  // ------------------------------------------------------- within the lease

  /** The attempt's lease has not run out and nobody else is working on its story. */
  ghost predicate Holding(w: World, run: nat, story: Uuid, until: int) {
    && Sole(w, story, run) && run in w.media && w.media[run].story == story
    && w.media[run].job in w.db.jobs
    && w.db.jobs[w.media[run].job].state.Leased? && w.db.jobs[w.media[run].job].state.until == until
  }

  /** If the attempt has put the key, the bytes behind it are its own. */
  ghost predicate Own(w: World, run: nat, key: string, writer: Option<nat>) {
    run in w.media && ((exists v :: v in w.media[run].puts && v.key == key) ==> writer == Some(run))
  }

  ghost predicate Ongoing(steps: seq<Action>, run: nat) {
    forall i :: 0 <= i < |steps| ==> !Ends(steps[i], run)
  }

  lemma LeasedIsLeft(w: World, a: Action, run: nat, story: Uuid, until: int)
    requires Inv(w) && Enabled(w, a) && Holding(w, run, story, until) && !Ends(a, run) && w.now <= until
    ensures !Touches(w, a, w.media[run].job) && !(a.ClaimMedia? && w.db.jobs[a.job].inputStory == story)
  {
    hide Inv, Apply;
    RunHasStory(w, run);
    JobOfStory(w, story);
    ClaimedFor(w, a);
    hide Enabled;
  }

  lemma SoleStays(w: World, a: Action, run: nat, story: Uuid)
    requires Enabled(w, a) && Sole(w, story, run) && !(a.ClaimMedia? && w.db.jobs[a.job].inputStory == story)
    ensures Sole(Apply(w, a), story, run)
  {
    ClaimedFor(w, a);
    forall r | r in Apply(w, a).media && Apply(w, a).media[r].story == story
      ensures r == run
    {
      HandlersLeft(w, a, r);
    }
    hide Enabled, Apply;
  }

  lemma HoldingStays(w: World, a: Action, run: nat, story: Uuid, until: int)
    requires Inv(w) && Enabled(w, a) && Holding(w, run, story, until) && !Ends(a, run) && w.now <= until
    ensures Holding(Apply(w, a), run, story, until)
  {
    LeasedIsLeft(w, a, run, story, until);
    JobLeft(w, a, w.media[run].job);
    HandlersLeft(w, a, run);
    ClaimedFor(w, a);
    SoleStays(w, a, run, story);
    hide Inv, Enabled, Apply, Touches, Sole;
  }

  lemma PutsGrow(w: World, a: Action)
    requires Enabled(w, a) && a.PutVariant?
    ensures a.run in w.media && a.run in Apply(w, a).media
    ensures var key := VariantKey(UuidText(w.media[a.run].story), a.kind.Name(), a.ext);
      Apply(w, a).media[a.run].puts == w.media[a.run].puts + [Variant(a.kind, key)]
  {
  }

  lemma OwnStays(w: World, a: Action, run: nat, story: Uuid, until: int, key: string, writer: Option<nat>)
    requires Enabled(w, a) && Holding(w, run, story, until) && !Ends(a, run) && StoryKey(story, key) && Own(w, run, key, writer)
    ensures Own(Apply(w, a), run, key, LastWriter(w, a, key, writer))
  {
    HandlersLeft(w, a, run);
    if Writes(w, a, key) {
      WritersWork(w, a, story, key);
    }
    if a.PutVariant? && a.run == run {
      PutsGrow(w, a);
      var v := Variant(a.kind, VariantKey(UuidText(w.media[run].story), a.kind.Name(), a.ext));
      assert forall u :: u in Apply(w, a).media[run].puts <==> u in w.media[run].puts || u == v;
    }
    hide Enabled, Apply, StoryKey, VariantKey, UuidText;
  }

  lemma {:induction false} HoldingAlong(w: World, steps: seq<Action>, w': World, run: nat, story: Uuid, until: int, key: string, writer: Option<nat>)
    requires Inv(w) && Path(w, steps, w') && Ongoing(steps, run) && w'.now <= until
    requires Holding(w, run, story, until) && StoryKey(story, key) && Own(w, run, key, writer)
    ensures Holding(w', run, story, until) && Own(w', run, key, Writer(w, steps, w', key, writer))
    decreases |steps|
  {
    hide Inv, Evolves, StoryKey, Holding, Own, LastWriter;
    if steps != [] {
      var a := steps[0];
      StepKept(w, a);
      PT.PathKept(w, steps, w');
      assert !Ends(a, run);
      HoldingStays(w, a, run, story, until);
      OwnStays(w, a, run, story, until, key, writer);
      assert Ongoing(steps[1..], run);
      HoldingAlong(Apply(w, a), steps[1..], w', run, story, until, key, LastWriter(w, a, key, writer));
    }
  }

  lemma ClaimHolds(w: World, claim: Action)
    requires Inv(w) && claim.ClaimMedia? && Enabled(w, claim) && Idle(w, w.db.jobs[claim.job].inputStory)
    ensures Holding(Apply(w, claim), claim.run, w.db.jobs[claim.job].inputStory, w.now + claim.lease)
    ensures claim.run in Apply(w, claim).media && Apply(w, claim).media[claim.run].puts == []
  {
    ClaimedFor(w, claim);
    hide Inv, Enabled, Apply;
  }

  /**
   * Whose bytes are served. If nobody was working on the story when an attempt claimed it, and the attempt publishes
   * within its lease, then the bytes behind each of its outputs are its own at the publication and for good.
   */
  lemma InTimeBytesStand(w: World, claim: Action, steps: seq<Action>, w': World, cleanupId: Uuid, v: Variant)
    requires Reachable(w) && claim.ClaimMedia? && Enabled(w, claim) && Idle(w, w.db.jobs[claim.job].inputStory)
    requires Path(Apply(w, claim), steps, w') && Ongoing(steps, claim.run) && w'.now <= w.now + claim.lease
    requires Enabled(w', Publish(claim.run, cleanupId)) && v in w'.media[claim.run].puts
    ensures var story := w'.media[claim.run].story; story == w.db.jobs[claim.job].inputStory && story in w'.db.stories
    ensures Writer(Apply(w, claim), steps, w', v.key, None) == Some(claim.run)
    ensures w'.db.stories[w'.media[claim.run].story].state.Processing? ==>
      StandsForGood(Apply(w', Publish(claim.run, cleanupId)), v.key)
  {
    hide Inv, Path, Apply, Idle, Reachable, Writer, StandsForGood, StoryKey, Ongoing, Sole, AtRest;
    ClaimedFor(w, claim);
    var story, run := w.db.jobs[claim.job].inputStory, claim.run;
    assert run in w'.media;
    hide Enabled;
    ClaimedWorlds(w, claim, steps, w');
    ClaimHolds(w, claim);
    HeldIsOwned(Apply(w, claim), steps, w', run, story, w.now + claim.lease, v);
    PublicationSettlesExactly(w', run, cleanupId);
    if w'.db.stories[story].state.Processing? {
      PublishedStands(w', run, cleanupId, v.key);
    }
  }

  /** The rows a publication writes name outputs of its own attempt. */
  lemma RowsAreOutputs(w: World, run: nat, cleanupId: Uuid, kind: VariantKind)
    requires Inv(w) && Enabled(w, Publish(run, cleanupId))
    requires var story := w.media[run].story; story in w.db.stories && w.db.stories[story].state.Processing?
    ensures var story, db' := w.media[run].story, Apply(w, Publish(run, cleanupId)).db;
      (story, kind) in db'.variants ==> Variant(kind, db'.variants[(story, kind)]) in w.media[run].puts
  {
    var m := w.media[run];
    NoRowsYet(w, m.story, kind);
    PublishUpserts(w, run, cleanupId);
    hide Inv, Apply, T.UpsertVariants;
    UpsertFacts(w.db.variants, m.story, m.puts);
  }

  lemma NoRowsYet(w: World, story: Uuid, kind: VariantKind)
    requires Inv(w) && story in w.db.stories && w.db.stories[story].state.Processing?
    ensures (story, kind) !in w.db.variants
  {
    OM.InvParts(w);
    StoryDated(w, story);
    hide Inv, StoryKey;
  }

  lemma PublishUpserts(w: World, run: nat, cleanupId: Uuid)
    requires Enabled(w, Publish(run, cleanupId))
    requires var story := w.media[run].story; story in w.db.stories && w.db.stories[story].state.Processing?
    ensures Apply(w, Publish(run, cleanupId)).db.variants == T.UpsertVariants(w.db.variants, w.media[run].story, w.media[run].puts)
  {
    hide T.UpsertVariants, OriginalOf;
  }

  /** The same of every row of the published story. */
  lemma InTimeRowsStand(w: World, claim: Action, steps: seq<Action>, w': World, cleanupId: Uuid, kind: VariantKind)
    requires Reachable(w) && claim.ClaimMedia? && Enabled(w, claim) && Idle(w, w.db.jobs[claim.job].inputStory)
    requires Path(Apply(w, claim), steps, w') && Ongoing(steps, claim.run) && w'.now <= w.now + claim.lease
    requires Enabled(w', Publish(claim.run, cleanupId))
    requires var story := w.db.jobs[claim.job].inputStory; story in w'.db.stories && w'.db.stories[story].state.Processing?
    ensures var (story, done) := (w.db.jobs[claim.job].inputStory, Apply(w', Publish(claim.run, cleanupId)));
      (story, kind) in done.db.variants ==>
        var key := done.db.variants[(story, kind)];
        Writer(Apply(w, claim), steps, w', key, None) == Some(claim.run) && StandsForGood(done, key)
  {
    hide Inv, Path, Apply, Idle, Reachable, Writer, StandsForGood, StoryKey, Ongoing, Sole;
    ClaimedFor(w, claim);
    var story, run := w.db.jobs[claim.job].inputStory, claim.run;
    assert run in w'.media;
    hide Enabled;
    ClaimedWorlds(w, claim, steps, w');
    ClaimHolds(w, claim);
    HeldStory(Apply(w, claim), steps, w', run, story, w.now + claim.lease);
    RowsAreOutputs(w', run, cleanupId, kind);
    var done := Apply(w', Publish(run, cleanupId));
    if (story, kind) in done.db.variants {
      InTimeBytesStand(w, claim, steps, w', cleanupId, Variant(kind, done.db.variants[(story, kind)]));
    }
  }

  lemma ClaimedWorlds(w: World, a: Action, steps: seq<Action>, w': World)
    requires Reachable(w) && Enabled(w, a) && Path(Apply(w, a), steps, w')
    ensures Inv(w) && Inv(Apply(w, a)) && Inv(w') && Reachable(w')
  {
    hide Inv, Enabled, Apply;
    ReachableStep(w, a);
    ReachableAlong(Apply(w, a), steps, w');
    PT.ReachableInv(w);
    PT.ReachableInv(Apply(w, a));
    PT.ReachableInv(w');
  }

  lemma PublishedStands(w: World, run: nat, cleanupId: Uuid, key: string)
    requires Reachable(w) && Enabled(w, Publish(run, cleanupId)) && StoryKey(w.media[run].story, key)
    requires var story := w.media[run].story;
      Sole(w, story, run) && story in w.db.stories && w.db.stories[story].state.Processing?
    ensures StandsForGood(Apply(w, Publish(run, cleanupId)), key)
  {
    var story, publish := w.media[run].story, Publish(run, cleanupId);
    PT.ReachableInv(w);
    PublicationSettlesExactly(w, run, cleanupId);
    hide Inv, Apply, Sole, Enabled, Reachable, StoryKey, StandsForGood;
    ReachableStep(w, publish);
    JobStays(w, publish, story);
    BytesStandExactly(Apply(w, publish), story, key);
  }

  lemma HeldStory(w: World, steps: seq<Action>, w': World, run: nat, story: Uuid, until: int)
    requires Inv(w) && Path(w, steps, w') && Ongoing(steps, run) && w'.now <= until
    requires Holding(w, run, story, until) && w.media[run].puts == []
    ensures Holding(w', run, story, until)
  {
    hide Path, Writer, VariantKey;
    var any := VariantKey(UuidText(story), Image.Name(), "");
    assert StoryKey(story, any);
    HoldingAlong(w, steps, w', run, story, until, any, None);
  }

  lemma HeldIsOwned(w: World, steps: seq<Action>, w': World, run: nat, story: Uuid, until: int, v: Variant)
    requires Inv(w) && Inv(w') && Path(w, steps, w') && Ongoing(steps, run) && w'.now <= until
    requires Holding(w, run, story, until) && w.media[run].puts == []
    requires run in w'.media && v in w'.media[run].puts
    ensures Writer(w, steps, w', v.key, None) == Some(run) && StoryKey(story, v.key)
    ensures w'.media[run].story == story && Sole(w', story, run)
  {
    hide Path, Writer, VariantKey;
    HeldStory(w, steps, w', run, story, until);
    assert RunBacked(w', w'.media[run]);
    HoldingAlong(w, steps, w', run, story, until, v.key, None);
  }

  lemma ReachableAlong(w: World, steps: seq<Action>, w': World)
    requires Reachable(w) && Path(w, steps, w')
    ensures Reachable(w')
  {
    var w0: World, before: seq<Action> :| Initial(w0) && Path(w0, before, w);
    PathJoin(w0, before, w, steps, w');
  }

  // ------------------------------------------------------------ an overrun lease

  /** The first worker has stored its output and overrun its lease, a second one has claimed the job. */
  function Reclaimed(lifetime: int): World {
    var w := Uploaded(lifetime);
    w.(now := 2,
       db := w.db.(jobs := map[1 := Job(Leased("", 3), 2)]),
       media := map[0 := MediaRun(1, 1, [Variant(Image, Output())]), 1 := MediaRun(1, 1, [])])
  }

  /** The first worker has published nevertheless. */
  function Overtaken(lifetime: int): World {
    World(2, lifetime,
      Db(map[1 := UploadIntent(1, KEY, 1, IntentState.Finalized)], map[1 := Job(Succeeded, 2)],
         map[1 := Story(1, 1, Published, DRAFT, Some(2), Some(2 + lifetime))], map[(1, Image) := Output()],
         map[1 := NewCleanup({KEY}, 2)], map[]),
      {Output()}, map[1 := MediaRun(1, 1, [])], map[], {})
  }

  lemma Reclaiming(lifetime: int)
    ensures Enabled(Uploaded(lifetime), Tick(2))
    ensures Enabled(Apply(Uploaded(lifetime), Tick(2)), ClaimMedia(1, 1, "", 1))
    ensures Apply(Apply(Uploaded(lifetime), Tick(2)), ClaimMedia(1, 1, "", 1)) == Reclaimed(lifetime)
  {
    hide VariantKey, UuidText;
  }

  lemma Overtaking(lifetime: int)
    ensures Enabled(Reclaimed(lifetime), Publish(0, 1))
    ensures Apply(Reclaimed(lifetime), Publish(0, 1)) == Overtaken(lifetime)
  {
    hide VariantKey, UuidText, T.UpsertVariants;
    var w, w' := Reclaimed(lifetime), Overtaken(lifetime);
    Upserting();
    var r := T.PublishStory(w.db, 2, 1, 1, [Variant(Image, Output())], lifetime, 1).value;
    assert r.jobs == w'.db.jobs;
    assert r.stories == w'.db.stories;
    assert r.cleanup == w'.db.cleanup;
    assert w.media - {0} == w'.media;
  }

  /** Without the lease the bytes do not stand: a published row whose object the next step of another worker replaces. */
  lemma OverrunIsReplaced(lifetime: int)
    ensures var w := Overtaken(lifetime);
      && Reachable(w) && w.db.stories[1].state.Published? && w.db.variants[(1, Image)] == Output()
      && Enabled(w, PutVariant(1, Image, "png")) && Writes(w, PutVariant(1, Image, "png"), Output())
      && !StandsForGood(w, Output())
  {
    var w := Overtaken(lifetime);
    UploadedIsReachable(lifetime);
    Reclaiming(lifetime);
    Overtaking(lifetime);
    ReachableStep(Uploaded(lifetime), Tick(2));
    ReachableStep(Apply(Uploaded(lifetime), Tick(2)), ClaimMedia(1, 1, "", 1));
    ReachableStep(Reclaimed(lifetime), Publish(0, 1));
    hide Reachable, VariantKey, UuidText;
    assert StoryKey(1, Output());
    assert w.media[1].story == 1;
    BytesStandExactly(w, 1, Output());
  }
}
