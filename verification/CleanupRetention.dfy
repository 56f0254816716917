/** How long view rows must be kept for the cleanup pass to be invisible: exactly as long as stories live. */
module CleanupRetention {
  import opened Options
  import opened ObjectKeys
  import opened Tables
  import opened Protocol
  import opened SocialGraph
  import opened Visibility
  import opened FeedTheorems
  import opened CleanupInvisible
  import PT = PipelineTheorems
  import S = PipelineSafety
  import T = Transactions
  import W = Worker
  import opened ShortRun

  ghost predicate PassOf(w: World, steps: seq<Action>, w': World, lifetime: int, retention: int) {
    Reachable(w) && w.lifetime == lifetime && Path(w, steps, w') && Passing(steps, retention)
  }

  /** From `from` on no caller sees another item, or another seen flag, in one table than in the other. */
  ghost predicate SameForAll(db: Db, db': Db, from: int) {
    forall g: Graph, viewer: Uuid, github: GitHubId, t: int {:trigger Reader(g, db, viewer, github, t)} ::
      from <= t ==> SameView(Reader(g, db, viewer, github, t), Reader(g, db', viewer, github, t))
  }

  ghost predicate PassesInvisible(lifetime: int, retention: int) {
    forall w, steps, w' {:trigger PassOf(w, steps, w', lifetime, retention)} ::
      PassOf(w, steps, w', lifetime, retention) ==> SameForAll(w.db, w'.db, w'.now)
  }

  // ---------------------------------------------------------------- the result

  /** The author's row, and a second account that may see what is public. */
  const GRAPH := Graph(map[1 := User(1, false, false)], map[], {}, {}, {}, map[])

  /** A pass that purges at `at` forgets that the second account has seen the story, which is still up. */
  lemma PurgeIsSeen(lifetime: int, retention: int, at: int)
    requires lifetime > at >= 0 && at >= retention
    ensures var w := Viewed(lifetime).(now := at);
      !SameView(Reader(GRAPH, w.db, 2, 2, at), Reader(GRAPH, T.PurgeViews(w.db, at, retention), 2, 2, at))
  {
    var w := Viewed(lifetime).(now := at);
    var db' := T.PurgeViews(w.db, at, retention);
    var r, r' := Reader(GRAPH, w.db, 2, 2, at), Reader(GRAPH, db', 2, 2, at);
    assert Visible(r, 1) && Seen(r, 1) && !Seen(r', 1);
  }

  lemma PassAt(lifetime: int, retention: int, at: int)
    requires lifetime > 0 && at >= 0
    ensures var w := Viewed(lifetime).(now := at);
      PassOf(w, [PurgeViews(retention)], w.(db := T.PurgeViews(w.db, at, retention)), lifetime, retention)
  {
    var w := Viewed(lifetime).(now := at);
    ViewedIsReachable(lifetime);
    assert Enabled(Viewed(lifetime), Tick(at)) && Apply(Viewed(lifetime), Tick(at)) == w;
    ReachableStep(Viewed(lifetime), Tick(at));
    hide Reachable, Viewed;
    var w' := w.(db := T.PurgeViews(w.db, at, retention));
    W.PathOne(w, PurgeViews(retention));
    assert Apply(w, PurgeViews(retention)) == w';
  }

  /** Cleanup passes are invisible to every reader exactly if view rows outlive the stories they belong to. */
  lemma RetentionNeededExactly(lifetime: int, retention: int)
    requires lifetime > 0
    ensures PassesInvisible(lifetime, retention) <==> lifetime <= retention
  {
    if lifetime <= retention {
      forall w, steps, w' | PassOf(w, steps, w', lifetime, retention)
        ensures SameForAll(w.db, w'.db, w'.now)
      {
        PassIsInvisible(w, steps, w', lifetime, retention);
      }
    } else {
      var at := if retention > 0 then retention else 0;
      var w := Viewed(lifetime).(now := at);
      var db' := T.PurgeViews(w.db, at, retention);
      PassAt(lifetime, retention, at);
      PurgeIsSeen(lifetime, retention, at);
      hide PassOf, SameView, Viewed, T.PurgeViews;
      var r, r' := Reader(GRAPH, w.db, 2, 2, at), Reader(GRAPH, db', 2, 2, at);
      assert !SameView(r, r');
      assert !SameForAll(w.db, db', at);
      assert PassOf(w, [PurgeViews(retention)], w.(db := db'), lifetime, retention);
    }
  }

  lemma PassIsInvisible(w: World, steps: seq<Action>, w': World, lifetime: int, retention: int)
    requires PassOf(w, steps, w', lifetime, retention) && lifetime <= retention
    ensures SameForAll(w.db, w'.db, w'.now)
  {
    hide S.Inv, Path, Passing, SameView;
    PT.ReachableInv(w);
    forall g: Graph, viewer: Uuid, github: GitHubId, t: int | w'.now <= t
      ensures SameView(Reader(g, w.db, viewer, github, t), Reader(g, w'.db, viewer, github, t))
    {
      SameViews(w, steps, w', retention, g, viewer, github, t);
    }
  }
}
