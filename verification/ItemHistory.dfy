/** The life of one item over whole runs: for whom it is, who ends it early, who has seen it. */
module ItemHistory {
  import opened Options
  import opened ObjectKeys
  import opened Tables
  import opened SocialGraph
  import opened Visibility
  import opened PipelineInvariant
  import opened PipelineSafety
  import opened Protocol
  import opened Causes
  import A = Access
  import PT = PipelineTheorems

  // ------------------------------------------------------------------- audience

  /** The audience the author has asked for at the end of a run, if it was `draft` at its start. */
  ghost function Addressed(w: World, steps: seq<Action>, w': World, story: Uuid, draft: Draft): Draft
    requires Path(w, steps, w')
    decreases |steps|
  {
    if steps == [] then draft
    else Addressed(Apply(w, steps[0]), steps[1..], w', story, AddressedBy(w, steps[0], story, draft))
  }

  /** The last word on the audience: the author's edit of the published item; a list is named by a list audience only. */
  ghost function AddressedBy(w: World, a: Action, story: Uuid, draft: Draft): Draft {
    if !Readdresses(w, a, story) then draft
    else if a.edit.visibility == Some(CustomList) then Draft(CustomList, a.edit.audienceList)
    else Draft(a.edit.visibility.value, None)
  }

  lemma {:induction false} AudienceAlong(w: World, steps: seq<Action>, w': World, story: Uuid)
    requires Inv(w) && Path(w, steps, w') && story in w.db.stories
    ensures story in w'.db.stories && w'.db.stories[story].author == w.db.stories[story].author
    ensures w'.db.stories[story].audience == Addressed(w, steps, w', story, w.db.stories[story].audience)
    decreases |steps|
  {
    hide Inv, Evolves, Readdresses;
    if steps != [] {
      StepKept(w, steps[0]);
      StoryChangesExactly(w, steps[0], story);
      AudienceAlong(Apply(w, steps[0]), steps[1..], w', story);
    }
  }

  /**
   * Whatever workers, sweeps and other users do meanwhile, an item belongs to the user who finalized its upload,
   * and its audience is the one that user asked for last: at the finalization, or in an edit of the published item.
   */
  lemma AudienceIsTheAuthors(w: World, user: Uuid, upload: Uuid, job: Uuid, story: Uuid, draft: Draft, steps: seq<Action>, w': World)
    requires Reachable(w) && Enabled(w, Finalize(user, upload, job, story, draft))
    requires Path(Apply(w, Finalize(user, upload, job, story, draft)), steps, w')
    ensures story in w'.db.stories && w'.db.stories[story].author == user
    ensures w'.db.stories[story].audience == Addressed(Apply(w, Finalize(user, upload, job, story, draft)), steps, w', story, draft)
  {
    var finalize := Finalize(user, upload, job, story, draft);
    PT.ReachableInv(w);
    StoriesBegin(w, finalize, story);
    assert story !in w.db.stories;
    StepKept(w, finalize);
    hide Inv, Enabled, Apply, Evolves;
    AudienceAlong(Apply(w, finalize), steps, w', story);
  }

  /**
   * Who sees an item, exactly, after any run and under any graph: while it is published and its time is not up and
   * its author's account stands, its author; and everyone else whom no block in either direction and no hide rule
   * bars and whom the audience names that the author asked for last.
   */
  lemma SeenExactlyByTheAddressed(w: World, user: Uuid, upload: Uuid, job: Uuid, story: Uuid, draft: Draft, steps: seq<Action>, w': World,
                                  g: Graph, viewer: Uuid, github: GitHubId)
    requires Reachable(w) && Enabled(w, Finalize(user, upload, job, story, draft))
    requires Path(Apply(w, Finalize(user, upload, job, story, draft)), steps, w')
    ensures story in w'.db.stories
    ensures var s := w'.db.stories[story];
      var asked := Addressed(Apply(w, Finalize(user, upload, job, story, draft)), steps, w', story, draft);
      A.VisibleIn(w', story, g, viewer, github) <==>
        && s.state == Published && s.publishedAt.Some? && w'.now < s.publishedAt.value + w.lifetime
        && user in g.users && !g.users[user].suspended && !g.users[user].deleted
        && (viewer == user
            || ((viewer, g.users[user].github) !in g.blocks && (user, github) !in g.blocks && (user, github) !in g.hides
                && A.Named(g, user, viewer, github, asked)))
  {
    var finalize := Finalize(user, upload, job, story, draft);
    AudienceIsTheAuthors(w, user, upload, job, story, draft, steps, w');
    PT.ReachableInv(w);
    StepKept(w, finalize);
    PT.PathKept(Apply(w, finalize), steps, w');
    hide Inv, Enabled, Apply, Evolves, Addressed, Path, Reachable, VisibleToViewer, A.Named;
    StoryDated(w', story);
    A.VisibleExactly(g, viewer, github, w'.now, w'.db.stories[story]);
  }

  // ------------------------------------------------------------------ early ends

  ghost predicate DeletedIn(w: World, steps: seq<Action>, story: Uuid)
    requires story in w.db.stories
  {
    exists i :: 0 <= i < |steps| && Removes(steps[i], story, w.db.stories[story].author)
  }

  predicate Removes(a: Action, story: Uuid, author: Uuid) {
    a.Delete? && a.story == story && (a.moderator || a.actor == author)
  }

  lemma ShowStep(w: World, a: Action, story: Uuid)
    requires Inv(w) && Enabled(w, a) && story in w.db.stories && w.db.stories[story].state == Published
    requires w.db.stories[story].expiresAt.Some? && w.now < w.db.stories[story].expiresAt.value
    ensures story in Apply(w, a).db.stories
    ensures var s, s' := w.db.stories[story], Apply(w, a).db.stories[story];
      && s'.author == s.author && s'.publishedAt == s.publishedAt && s'.expiresAt == s.expiresAt
      && (s'.state == Published <==> !Removes(a, story, s.author)) && (Removes(a, story, s.author) ==> s'.state.Gone())
  {
    hide Inv, Enabled, Apply;
    StoryChangesExactly(w, a, story);
    hide Readdresses, Works;
  }

  lemma {:induction false} ShowAlong(w: World, steps: seq<Action>, w': World, story: Uuid)
    requires Inv(w) && Path(w, steps, w') && story in w.db.stories && w.db.stories[story].state == Published
    requires w.db.stories[story].expiresAt.Some? && w'.now < w.db.stories[story].expiresAt.value
    ensures story in w'.db.stories && w'.db.stories[story].expiresAt == w.db.stories[story].expiresAt
    ensures w'.db.stories[story].state == Published <==> !DeletedIn(w, steps, story)
    decreases |steps|
  {
    hide Inv, Evolves;
    if steps != [] {
      var a, next := steps[0], Apply(w, steps[0]);
      StoryDated(w, story);
      StepKept(w, a);
      PT.PathKept(w, steps, w');
      ShowStep(w, a, story);
      PT.PathKept(next, steps[1..], w');
      hide Enabled, Apply;
      if Removes(a, story, w.db.stories[story].author) {
        PT.KeptStory(next, w', story);
        assert DeletedIn(w, steps, story);
      } else {
        ShowAlong(next, steps[1..], w', story);
        DeletedLater(w, steps, next, story);
      }
    }
  }

  lemma DeletedLater(w: World, steps: seq<Action>, next: World, story: Uuid)
    requires steps != [] && story in w.db.stories && story in next.db.stories
    requires next.db.stories[story].author == w.db.stories[story].author && !Removes(steps[0], story, w.db.stories[story].author)
    ensures DeletedIn(w, steps, story) <==> DeletedIn(next, steps[1..], story)
  {
    var author := w.db.stories[story].author;
    if DeletedIn(w, steps, story) {
      var i :| 0 <= i < |steps| && Removes(steps[i], story, author);
      assert Removes(steps[1..][i - 1], story, author);
    }
    if DeletedIn(next, steps[1..], story) {
      var i :| 0 <= i < |steps[1..]| && Removes(steps[1..][i], story, author);
      assert Removes(steps[i + 1], story, author);
    }
  }

  /** Before its time is up an item on show ends exactly by its author's deletion or a moderator's. */
  lemma EndsEarlyExactly(w: World, steps: seq<Action>, w': World, story: Uuid)
    requires Reachable(w) && Path(w, steps, w') && A.OnShow(w, story) && w'.now < w.db.stories[story].expiresAt.value
    ensures A.OnShow(w', story) <==> !DeletedIn(w, steps, story)
  {
    PT.ReachableInv(w);
    ShowAlong(w, steps, w', story);
    PT.StoryHistory(w, steps, w', story);
    hide Inv, Path, Reachable;
  }

  // ------------------------------------------------------------------------ views

  ghost predicate KeepsViews(steps: seq<Action>, lifetime: int) {
    forall i :: 0 <= i < |steps| && steps[i].PurgeViews? ==> lifetime <= steps[i].retention
  }

  lemma {:induction false} ViewAlong(w: World, steps: seq<Action>, w': World, v: (Uuid, Uuid))
    requires Inv(w) && Path(w, steps, w') && v in w.db.views && KeepsViews(steps, w.lifetime)
    requires w'.now < w.db.views[v].deliveredAt + w.lifetime
    ensures v in w'.db.views && w'.db.views[v].deliveredAt == w.db.views[v].deliveredAt
    decreases |steps|
  {
    hide Inv, Evolves;
    if steps != [] {
      var next := Apply(w, steps[0]);
      StepKept(w, steps[0]);
      PT.PathKept(next, steps[1..], w');
      ViewChangesExactly(w, steps[0], v);
      ClockMoves(w, steps[0]);
      hide Enabled, Apply;
      assert KeepsViews(steps[1..], w.lifetime);
      ViewAlong(next, steps[1..], w', v);
    }
  }

  lemma ClockMoves(w: World, a: Action)
    requires Enabled(w, a)
    ensures a.PurgeViews? ==> Apply(w, a).now == w.now
  {
  }

  /** What has once been delivered to a viewer stays marked as seen for as long as anyone can see it. */
  lemma SeenStaysSeen(w: World, steps: seq<Action>, w': World, story: Uuid, viewer: Uuid, g: Graph, github: GitHubId)
    requires Reachable(w) && Path(w, steps, w') && KeepsViews(steps, w.lifetime)
    requires Seen(Reader(g, w.db, viewer, github, w.now), story) && A.OnShow(w', story)
    ensures Seen(Reader(g, w'.db, viewer, github, w'.now), story)
  {
    PT.ReachableInv(w);
    ViewedStory(w, (story, viewer));
    PT.StoryHistory(w, steps, w', story);
    hide Inv, Reachable;
    ViewAlong(w, steps, w', (story, viewer));
  }

  lemma ViewedStory(w: World, v: (Uuid, Uuid))
    requires Inv(w) && v in w.db.views
    ensures v.0 in w.db.stories && w.db.stories[v.0].publishedAt.Some? && w.db.stories[v.0].publishedAt.value <= w.db.views[v].deliveredAt
  {
    assert ViewDated(w.db, v, w.db.views[v].deliveredAt);
  }

  /** An item is marked as seen by a delivery or an acknowledgement to that viewer, and by nothing else. */
  lemma SeenByDelivery(w: World, a: Action, story: Uuid, viewer: Uuid, g: Graph, github: GitHubId)
    requires Enabled(w, a)
    ensures Records(a, (story, viewer)) ==> Seen(Reader(g, Apply(w, a).db, viewer, github, w.now), story)
    ensures !Seen(Reader(g, w.db, viewer, github, w.now), story) && !Records(a, (story, viewer)) ==>
      !Seen(Reader(g, Apply(w, a).db, viewer, github, w.now), story)
  {
    ViewChangesExactly(w, a, (story, viewer));
    hide Enabled, Apply, Records;
  }
}
