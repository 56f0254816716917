/** A cleanup pass removes bytes and spent rows; no reader can tell whether it has run. */
module CleanupInvisible {
  import opened Options
  import opened ObjectKeys
  import opened Tables
  import opened PipelineInvariant
  import opened PipelineSafety
  import opened Protocol
  import opened SocialGraph
  import opened Visibility
  import opened Feed
  import opened FeedTheorems
  import W = Worker
  import PT = PipelineTheorems
  import T = Transactions

  ghost predicate LiveAt(db: Db, s: Uuid, t: int) {
    s in db.stories && Live(db.stories[s], t)
  }

  /** At `t` both tables hold the same live story with the same view rows. */
  ghost predicate SameRead(db: Db, db': Db, s: Uuid, t: int) {
    && (LiveAt(db, s, t) <==> LiveAt(db', s, t))
    && (LiveAt(db, s, t) ==>
         db.stories[s] == db'.stories[s] && forall v :: (s, v) in db.views <==> (s, v) in db'.views)
  }

  /** Views old enough to purge belong to stories old enough to have expired. */
  lemma PurgeReads(w: World, retention: int, s: Uuid, t: int)
    requires Inv(w) && w.lifetime <= retention && w.now <= t
    ensures SameRead(w.db, T.PurgeViews(w.db, w.now, retention), s, t)
  {
    var db' := T.PurgeViews(w.db, w.now, retention);
    if LiveAt(w.db, s, t) {
      StoryDated(w, s);
      forall v ensures (s, v) in w.db.views <==> (s, v) in db'.views {
        if (s, v) in w.db.views {
          assert ViewDated(w.db, (s, v), w.db.views[(s, v)].deliveredAt);
        }
      }
    }
  }

  lemma ExpireReads(db: Db, now: int, batch: map<Uuid, Uuid>, s: Uuid, t: int)
    requires now <= t && forall c :: c in batch ==> batch[c] in db.stories && StoryDue(db.stories[batch[c]], now)
    ensures SameRead(db, T.ExpireStories(db, now, batch), s, t)
  {
  }

  /** Every kind of step a pass takes, and time itself. */
  lemma StepReads(w: World, a: Action, retention: int, s: Uuid, t: int)
    requires Inv(w) && Enabled(w, a) && w.lifetime <= retention && (W.SweepStep(a, retention) || a.Tick?)
    requires Apply(w, a).now <= t
    ensures SameRead(w.db, Apply(w, a).db, s, t)
  {
    hide Inv, T.ExpireStories, T.PurgeViews, T.GCAbandonedUploads;
    match a
    case Expire(batch) => ExpireReads(w.db, w.now, batch, s, t);
    case PurgeViews(_) => PurgeReads(w, retention, s, t);
    case CollectUploads(due, cleanupId) => CollectReads(w.db, w.now, due, cleanupId);
    case Reap => assert Apply(w, a).db.stories == w.db.stories && Apply(w, a).db.views == w.db.views;
    case _ => RowReads(w, a);
  }

  lemma CollectReads(db: Db, now: int, due: set<Uuid>, cleanupId: Uuid)
    ensures T.GCAbandonedUploads(db, now, due, cleanupId).stories == db.stories
    ensures T.GCAbandonedUploads(db, now, due, cleanupId).views == db.views
  {
  }

  lemma RowReads(w: World, a: Action)
    requires Enabled(w, a)
    requires a.Tick? || a.ClaimCleanup? || a.DeleteObject? || a.CompleteCleanup? || a.FailCleanup? || a.DropCleanup?
    ensures Apply(w, a).db.stories == w.db.stories && Apply(w, a).db.views == w.db.views
  {
  }

  ghost predicate Passing(steps: seq<Action>, retention: int) {
    forall i :: 0 <= i < |steps| ==> W.SweepStep(steps[i], retention) || steps[i].Tick?
  }

  lemma {:induction false} PassReads(w: World, steps: seq<Action>, w': World, retention: int, s: Uuid, t: int)
    requires Inv(w) && Path(w, steps, w') && Passing(steps, retention) && w.lifetime <= retention && w'.now <= t
    ensures SameRead(w.db, w'.db, s, t)
    decreases |steps|
  {
    hide Inv, Evolves, SameRead;
    if steps == [] {
      ReadsItself(w.db, s, t);
    } else {
      var next := Apply(w, steps[0]);
      StepKept(w, steps[0]);
      PT.PathKept(next, steps[1..], w');
      StepReads(w, steps[0], retention, s, t);
      PassReads(next, steps[1..], w', retention, s, t);
      ReadsTransitive(w.db, next.db, w'.db, s, t);
    }
  }

  lemma ReadsItself(db: Db, s: Uuid, t: int)
    ensures SameRead(db, db, s, t)
  {
  }

  lemma ReadsTransitive(a: Db, b: Db, c: Db, s: Uuid, t: int)
    requires SameRead(a, b, s, t) && SameRead(b, c, s, t)
    ensures SameRead(a, c, s, t)
  {
  }

  /**
   * If view rows are kept at least as long as stories live, a pass -- complete, partial, repeated or
   * interrupted, at one instant or many -- changes nothing any caller can read afterwards: which items
   * are visible, their seen flags, every feed, every author sequence and every ring.
   */
  lemma CleanupIsInvisible(w: World, steps: seq<Action>, w': World, retention: int,
                           g: Graph, viewer: Uuid, github: GitHubId, t: int)
    requires Reachable(w) && Path(w, steps, w') && Passing(steps, retention) && w.lifetime <= retention && w'.now <= t
    ensures var r, r' := Reader(g, w.db, viewer, github, t), Reader(g, w'.db, viewer, github, t);
      && (forall s :: Visible(r, s) <==> Visible(r', s))
      && (forall s :: Visible(r, s) ==> (Seen(r, s) <==> Seen(r', s)) && r.db.stories[s] == r'.db.stories[s])
      && (forall includeMuted, rows :: FeedAnswer(r, includeMuted, rows) <==> FeedAnswer(r', includeMuted, rows))
      && (forall target, rows :: SequenceAnswer(r, target, rows) <==> SequenceAnswer(r', target, rows))
      && (forall target :: Ring(r, target) == Ring(r', target))
  {
    hide FeedAnswer, SequenceAnswer, Ring, SameView, Inv, Enabled;
    var r, r' := Reader(g, w.db, viewer, github, t), Reader(g, w'.db, viewer, github, t);
    PT.ReachableInv(w);
    SameViews(w, steps, w', retention, g, viewer, github, t);
    SameViewMeans(r, r');
    forall includeMuted, rows ensures FeedAnswer(r, includeMuted, rows) <==> FeedAnswer(r', includeMuted, rows) {
      if FeedAnswer(r, includeMuted, rows) { SameFeed(r, r', includeMuted, rows); }
      if FeedAnswer(r', includeMuted, rows) { SameFeed(r', r, includeMuted, rows); }
    }
    forall target, rows ensures SequenceAnswer(r, target, rows) <==> SequenceAnswer(r', target, rows) {
      SameSequence(r, r', target, rows);
      SameSequence(r', r, target, rows);
    }
    forall target ensures Ring(r, target) == Ring(r', target) {
      SameSequence(r, r', target, []);
    }
  }

  lemma SameViewMeans(r: Reader, q: Reader)
    requires SameView(r, q)
    ensures SameView(q, r)
    ensures forall s :: Visible(r, s) <==> Visible(q, s)
    ensures forall s :: Visible(r, s) ==> (Seen(r, s) <==> Seen(q, s)) && r.db.stories[s] == q.db.stories[s]
  {
  }

  lemma SameViews(w: World, steps: seq<Action>, w': World, retention: int,
                  g: Graph, viewer: Uuid, github: GitHubId, t: int)
    requires Inv(w) && Path(w, steps, w') && Passing(steps, retention) && w.lifetime <= retention && w'.now <= t
    ensures SameView(Reader(g, w.db, viewer, github, t), Reader(g, w'.db, viewer, github, t))
  {
    hide Inv, Path, Passing;
    var r, r' := Reader(g, w.db, viewer, github, t), Reader(g, w'.db, viewer, github, t);
    forall s ensures SameRead(w.db, w'.db, s, t) {
      PassReads(w, steps, w', retention, s, t);
    }
    forall s ensures Visible(r, s) <==> Visible(r', s) {
      assert SameRead(w.db, w'.db, s, t);
    }
    forall s | Visible(r, s) ensures r.db.stories[s] == r'.db.stories[s] && (Seen(r, s) <==> Seen(r', s)) {
      assert SameRead(w.db, w'.db, s, t);
    }
  }
}
