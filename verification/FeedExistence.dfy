/** The queries behind feed and sequence always have an answer, for every graph, caller and clock. */
module FeedExistence {
  import opened Options
  import opened ObjectKeys
  import opened SocialGraph
  import opened Visibility
  import opened Feed
  import opened FeedTheorems

  // ------------------------------------------------------------------ sorting

  /** Rows in ORDER BY order: nothing that sorts earlier comes later. */
  ghost predicate Sorted(rows: seq<FeedRow>) {
    forall i, j :: 0 <= i < j < |rows| ==> !RowLess(rows[j], rows[i])
  }

  lemma RankOrder(a: Rank, b: Rank, c: Rank)
    ensures !RankLess(b, a) && !RankLess(c, b) ==> !RankLess(c, a)
    ensures RankLess(a, b) ==> !RankLess(b, a)
    ensures !RankLess(a, b) && !RankLess(b, a) ==> a == b
  {
  }

  lemma RowOrder(a: FeedRow, b: FeedRow, c: FeedRow)
    ensures !RowLess(b, a) && !RowLess(c, b) ==> !RowLess(c, a)
    ensures RowLess(a, b) ==> !RowLess(b, a)
  {
    RankOrder(a.rank, b.rank, c.rank);
    RankOrder(c.rank, b.rank, a.rank);
    RankOrder(a.rank, c.rank, b.rank);
    RankOrder(b.rank, a.rank, c.rank);
    hide RankLess;
  }

  ghost function Inserted(rows: seq<FeedRow>, x: FeedRow): seq<FeedRow> {
    if rows == [] || !RowLess(rows[0], x) then [x] + rows else [rows[0]] + Inserted(rows[1..], x)
  }

  lemma {:induction false} InsertedHolds(rows: seq<FeedRow>, x: FeedRow)
    ensures |Inserted(rows, x)| == |rows| + 1
    ensures forall y :: y in Inserted(rows, x) <==> y in rows || y == x
  {
    hide RowLess;
    if rows != [] && RowLess(rows[0], x) {
      InsertedHolds(rows[1..], x);
      assert rows == [rows[0]] + rows[1..];
    }
  }

  lemma {:induction false} InsertedSorted(rows: seq<FeedRow>, x: FeedRow)
    requires Sorted(rows)
    ensures Sorted(Inserted(rows, x))
  {
    hide RowLess;
    var out := Inserted(rows, x);
    if rows == [] || !RowLess(rows[0], x) {
      forall j | 0 <= j < |rows|
        ensures !RowLess(rows[j], x)
      {
        RowOrder(x, rows[0], rows[j]);
      }
    } else {
      InsertedSorted(rows[1..], x);
      InsertedHolds(rows[1..], x);
      RowOrder(rows[0], x, x);
      forall y | y in Inserted(rows[1..], x)
        ensures !RowLess(y, rows[0])
      {
      }
    }
  }

  // ------------------------------------------------------------- rows and ranks

  lemma LatestExists(r: Reader, stories: set<Uuid>) returns (latest: int)
    requires stories != {}
    ensures exists s :: s in stories && PublishedAt(r, s) == latest
    ensures forall s :: s in stories ==> PublishedAt(r, s) <= latest
    decreases |stories|
  {
    hide PublishedAt;
    var s :| s in stories;
    latest := PublishedAt(r, s);
    if stories != {s} {
      var rest := LatestExists(r, stories - {s});
      assert forall t :: t in stories ==> t == s || t in stories - {s};
      if rest > latest {
        latest := rest;
      }
    }
  }

  lemma RowExists(r: Reader, s: Uuid) returns (row: FeedRow)
    requires Visible(r, s)
    ensures row.story == s && RowRight(r, row)
  {
    var author := r.db.stories[s].author;
    var all := set t | t in r.db.stories && VisibleBy(r, author, t);
    assert s in all;
    var latest := LatestExists(r, all);
    var t :| t in all && PublishedAt(r, t) == latest;
    assert forall t :: VisibleBy(r, author, t) ==> t in all;
    var rank := Rank(author == r.viewer, HasUnseen(r, author), ProvenanceClass(r, author), latest, r.g.users[author].github);
    assert IsLatest(r, author, latest);
    row := FeedRow(s, author, PublishedAt(r, s), Seen(r, s), rank);
  }

  /** The rows of some visible items, each once, in order. */
  ghost predicate Arranges(r: Reader, stories: set<Uuid>, rows: seq<FeedRow>) {
    && Sorted(rows)
    && |rows| == |stories|
    && (forall i :: 0 <= i < |rows| ==> RowRight(r, rows[i]) && rows[i].story in stories)
    && (forall s :: s in stories ==> exists i :: 0 <= i < |rows| && rows[i].story == s)
  }

  lemma Arrange(r: Reader, stories: set<Uuid>) returns (rows: seq<FeedRow>)
    requires forall s :: s in stories ==> Visible(r, s)
    ensures Arranges(r, stories, rows)
    decreases |stories|
  {
    if stories == {} {
      rows := [];
    } else {
      var s :| s in stories;
      var rest := Arrange(r, stories - {s});
      var row := RowExists(r, s);
      rows := Inserted(rest, row);
      InsertedSorted(rest, row);
      InsertedHolds(rest, row);
      hide RowRight, Inserted, Sorted;
      forall t | t in stories
        ensures exists i :: 0 <= i < |rows| && rows[i].story == t
      {
        if t == s {
          assert row in rows;
        } else {
          assert t in stories - {s};
          var i :| 0 <= i < |rest| && rest[i].story == t;
          assert rest[i] in rows;
        }
      }
      forall i | 0 <= i < |rows|
        ensures RowRight(r, rows[i]) && rows[i].story in stories
      {
        assert rows[i] in rows;
      }
    }
  }

  ghost function Stories(rows: seq<FeedRow>): set<Uuid> {
    set i | 0 <= i < |rows| :: rows[i].story
  }

  lemma StoriesGrow(rows: seq<FeedRow>)
    requires rows != []
    ensures Stories(rows) == Stories(rows[..|rows| - 1]) + {rows[|rows| - 1].story}
  {
  }

  lemma StoriesHold(rows: seq<FeedRow>, i: nat)
    requires i < |rows|
    ensures rows[i].story in Stories(rows)
  {
  }

  /** As many rows as items, and every item in some row: no item twice. */
  lemma {:induction false} NoneTwice(rows: seq<FeedRow>)
    ensures |Stories(rows)| <= |rows|
    ensures |Stories(rows)| == |rows| ==> forall i, j :: 0 <= i < j < |rows| ==> rows[i].story != rows[j].story
  {
    if rows == [] {
      assert Stories(rows) == {};
    } else {
      var init, last := rows[..|rows| - 1], rows[|rows| - 1].story;
      NoneTwice(init);
      StoriesGrow(rows);
      hide Stories;
      if |Stories(rows)| == |rows| {
        assert last !in Stories(init);
        forall i, j | 0 <= i < j < |rows|
          ensures rows[i].story != rows[j].story
        {
          StoriesHold(init, i);
        }
      }
    }
  }

  lemma ArrangedOnce(r: Reader, stories: set<Uuid>, rows: seq<FeedRow>)
    requires Arranges(r, stories, rows)
    ensures forall i, j :: 0 <= i < j < |rows| ==> rows[i].story != rows[j].story
  {
    hide Sorted, RowRight;
    assert Stories(rows) == stories;
    NoneTwice(rows);
  }

  ghost function ListedItems(r: Reader, includeMuted: bool): set<Uuid> {
    set s | s in r.db.stories && Visible(r, s) && Listed(r, includeMuted, r.db.stories[s].author)
  }

  /** The ranking query has an answer. */
  lemma FeedHasAnswer(r: Reader, includeMuted: bool) returns (rows: seq<FeedRow>)
    ensures FeedAnswer(r, includeMuted, rows)
  {
    rows := Arrange(r, ListedItems(r, includeMuted));
    ArrangedOnce(r, ListedItems(r, includeMuted), rows);
    hide Listed, IsRank, VisibleToViewer, Seen, RowLess;
    forall i | 0 <= i < |rows|
      ensures Listed(r, includeMuted, rows[i].author)
    {
      assert rows[i].story in ListedItems(r, includeMuted);
    }
    forall s | Visible(r, s) && Listed(r, includeMuted, r.db.stories[s].author)
      ensures exists i :: 0 <= i < |rows| && rows[i].story == s
    {
      assert s in ListedItems(r, includeMuted);
    }
  }

  /** And so has the author query, for every account. */
  lemma SequenceHasAnswer(r: Reader, target: GitHubId) returns (rows: seq<SequenceRow>)
    requires GitHubIdsUnique(r.g)
    ensures SequenceAnswer(r, target, rows)
  {
    hide FeedAnswer, IsSequence, GroupOf, ItemsOf, GitHubIdsUnique, Muted;
    rows := [];
    if exists s :: AuthoredBy(r, target, s) {
      var s :| AuthoredBy(r, target, s);
      var author := r.db.stories[s].author;
      assert VisibleBy(r, author, s) && Listed(r, true, author);
      hide Visible, Listed, Seen, PublishedAt;
      var feed := FeedHasAnswer(r, true);
      GroupIsSequence(r, true, feed, author);
      var g := GroupOf(author, ItemsOf(feed, author));
      rows := seq(|g.items|, i requires 0 <= i < |g.items| => SequenceRow(g.items[i], PublishedAt(r, g.items[i]), g.seen[i]));
      SequenceIsAnswer(r, target, author, g.items, g.seen, rows);
    }
  }

  lemma SequenceIsAnswer(r: Reader, target: GitHubId, author: Uuid, items: seq<Uuid>, seen: seq<bool>, rows: seq<SequenceRow>)
    requires GitHubIdsUnique(r.g) && author in r.g.users && r.g.users[author].github == target
    requires IsSequence(r, author, items, seen) && |rows| == |items|
    requires forall i :: 0 <= i < |rows| ==> rows[i] == SequenceRow(items[i], PublishedAt(r, items[i]), seen[i])
    ensures SequenceAnswer(r, target, rows)
  {
    forall s
      ensures AuthoredBy(r, target, s) <==> VisibleBy(r, author, s)
    {
    }
    forall s | AuthoredBy(r, target, s)
      ensures exists i :: 0 <= i < |rows| && rows[i].story == s
    {
      var i :| 0 <= i < |items| && items[i] == s;
      assert rows[i].story == s;
    }
  }
}
