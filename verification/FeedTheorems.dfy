/** What the three reads promise, and that they agree. */
module FeedTheorems {
  import opened Options
  import opened ObjectKeys
  import opened Tables
  import opened SocialGraph
  import opened Visibility
  import opened Feed

  /** Precisely `author`'s visible items, once each, oldest first, with matching seen flags. */
  ghost predicate IsSequence(r: Reader, author: Uuid, items: seq<Uuid>, seen: seq<bool>) {
    && |items| == |seen|
    && (forall i :: 0 <= i < |items| ==> VisibleBy(r, author, items[i]) && seen[i] == Seen(r, items[i]))
    && (forall s :: VisibleBy(r, author, s) ==> s in items)
    && (forall i, j :: 0 <= i < j < |items| ==> items[i] != items[j])
    && (forall i, j :: 0 <= i < j < |items| ==> PublishedAt(r, items[i]) <= PublishedAt(r, items[j]))
  }

  function PublishedAt(r: Reader, story: Uuid): int {
    if story in r.db.stories && r.db.stories[story].publishedAt.Some?
    then r.db.stories[story].publishedAt.value else 0
  }

  // ------------------------------------------------------------------- ranking

  lemma RankTotal(a: Rank, b: Rank)
    ensures RankLess(a, b) || RankLess(b, a) || a == b
    ensures !(RankLess(a, b) && RankLess(b, a))
  {
  }

  lemma RankUnique(r: Reader, author: Uuid, k: Rank, l: Rank)
    requires IsRank(r, author, k) && IsRank(r, author, l)
    ensures k == l
  {
    var s :| VisibleBy(r, author, s) && r.db.stories[s].publishedAt == Some(k.latest);
    var t :| VisibleBy(r, author, t) && r.db.stories[t].publishedAt == Some(l.latest);
  }

  lemma RanksDiffer(r: Reader, a: Uuid, b: Uuid, k: Rank, l: Rank)
    requires GitHubIdsUnique(r.g) && a != b && IsRank(r, a, k) && IsRank(r, b, l)
    ensures k != l
  {
  }

  /** Two listed authors appear in the order their first rows do. */
  lemma {:induction false} FirstRows(rows: seq<FeedRow>, i: nat, j: nat) returns (p: nat, q: nat)
    requires i < j < |Authors(rows)|
    ensures p < q < |rows| && rows[p].author == Authors(rows)[i] && rows[q].author == Authors(rows)[j]
  {
    var init, last := rows[..|rows| - 1], rows[|rows| - 1];
    if j < |Authors(init)| {
      p, q := FirstRows(init, i, j);
    } else {
      q := |rows| - 1;
      AuthorsFacts(init);
      var a := Authors(init)[i];
      assert a in Authors(init);
      p :| 0 <= p < |init| && init[p].author == a;
    }
  }

  /** The caller follows the author: there is an active row. */
  ghost predicate FollowedBy(r: Reader, author: Uuid) {
    && author in r.g.users && (r.viewer, r.g.users[author].github) in r.g.relationships
    && r.g.relationships[(r.viewer, r.g.users[author].github)].state == Active
  }

  /** And the follow was made on Stories, not imported. */
  ghost predicate FollowedNatively(r: Reader, author: Uuid) {
    FollowedBy(r, author) && r.g.relationships[(r.viewer, r.g.users[author].github)].provenance == StoriesNative
  }

  /** Nothing visible of `b` is younger than everything visible of `a`. */
  ghost predicate NoOlder(r: Reader, a: Uuid, b: Uuid) {
    forall t :: VisibleBy(r, b, t) ==> exists s :: VisibleBy(r, a, s) && PublishedAt(r, t) <= PublishedAt(r, s)
  }

  /**
   * The order the product promises: whoever has something unseen first; among those alike, natively followed before
   * imported before others; then by the latest publication, and last by GitHub id.
   */
  ghost predicate ComesBefore(r: Reader, a: Uuid, b: Uuid) {
    && (HasUnseen(r, b) ==> HasUnseen(r, a))
    && ((HasUnseen(r, a) <==> HasUnseen(r, b)) ==>
         && (FollowedNatively(r, b) ==> FollowedNatively(r, a))
         && (FollowedBy(r, b) ==> FollowedBy(r, a))
         && ((FollowedNatively(r, a) <==> FollowedNatively(r, b)) && (FollowedBy(r, a) <==> FollowedBy(r, b)) ==>
              && NoOlder(r, a, b)
              && (NoOlder(r, b, a) ==> a in r.g.users && b in r.g.users && r.g.users[a].github < r.g.users[b].github)))
  }

  lemma LatestIsVisible(r: Reader, a: Uuid, t: int) returns (s: Uuid)
    requires IsLatest(r, a, t)
    ensures VisibleBy(r, a, s) && PublishedAt(r, s) == t
    ensures forall x :: VisibleBy(r, a, x) ==> PublishedAt(r, x) <= t
  {
    s :| VisibleBy(r, a, s) && r.db.stories[s].publishedAt == Some(t);
    hide VisibleToViewer;
  }

  lemma LatestDecides(r: Reader, a: Uuid, b: Uuid, t: int, u: int)
    requires IsLatest(r, a, t) && IsLatest(r, b, u)
    ensures NoOlder(r, a, b) <==> u <= t
  {
    hide VisibleBy, IsLatest, PublishedAt;
    var s := LatestIsVisible(r, a, t);
    var v := LatestIsVisible(r, b, u);
    if u <= t {
      forall x | VisibleBy(r, b, x)
        ensures exists y :: VisibleBy(r, a, y) && PublishedAt(r, x) <= PublishedAt(r, y)
      {
        assert PublishedAt(r, x) <= u <= t == PublishedAt(r, s);
      }
    }
    if NoOlder(r, a, b) {
      var y :| VisibleBy(r, a, y) && PublishedAt(r, v) <= PublishedAt(r, y);
    }
  }

  lemma TierIs(r: Reader, a: Uuid)
    requires a != r.viewer
    ensures ProvenanceClass(r, a) == if FollowedNatively(r, a) then 1 else if FollowedBy(r, a) then 2 else 3
  {
  }

  lemma RankMeans(r: Reader, a: Uuid, b: Uuid, k: Rank, l: Rank)
    requires a != r.viewer && b != r.viewer && IsRank(r, a, k) && IsRank(r, b, l) && RankLess(k, l)
    ensures ComesBefore(r, a, b)
  {
    TierIs(r, a);
    TierIs(r, b);
    LatestDecides(r, a, b, k.latest, l.latest);
    LatestDecides(r, b, a, l.latest, k.latest);
    hide IsLatest, HasUnseen, FollowedNatively, FollowedBy, NoOlder, ProvenanceClass;
  }

  /** Authors come out in strict lexicographic order: unseen first, then provenance, recency, GitHub id. */
  lemma AuthorsRanked(r: Reader, includeMuted: bool, rows: seq<FeedRow>, i: nat, j: nat, k: Rank, l: Rank)
    requires GitHubIdsUnique(r.g) && FeedAnswer(r, includeMuted, rows)
    requires i < j < |Authors(rows)| && IsRank(r, Authors(rows)[i], k) && IsRank(r, Authors(rows)[j], l)
    ensures RankLess(k, l)
    ensures Authors(rows)[i] != r.viewer && Authors(rows)[j] != r.viewer ==> ComesBefore(r, Authors(rows)[i], Authors(rows)[j])
  {
    InRankOrder(r, includeMuted, rows, i, j, k, l);
    hide FeedAnswer, IsRank, RankLess, ComesBefore, Authors;
    if Authors(rows)[i] != r.viewer && Authors(rows)[j] != r.viewer {
      RankMeans(r, Authors(rows)[i], Authors(rows)[j], k, l);
    }
  }

  lemma InRankOrder(r: Reader, includeMuted: bool, rows: seq<FeedRow>, i: nat, j: nat, k: Rank, l: Rank)
    requires GitHubIdsUnique(r.g) && FeedAnswer(r, includeMuted, rows)
    requires i < j < |Authors(rows)| && IsRank(r, Authors(rows)[i], k) && IsRank(r, Authors(rows)[j], l)
    ensures RankLess(k, l)
  {
    AuthorsFacts(rows);
    var p, q := FirstRows(rows, i, j);
    assert RowRight(r, rows[p]) && RowRight(r, rows[q]) && !RowLess(rows[q], rows[p]);
    RankUnique(r, Authors(rows)[i], k, rows[p].rank);
    RankUnique(r, Authors(rows)[j], l, rows[q].rank);
    RanksDiffer(r, Authors(rows)[i], Authors(rows)[j], k, l);
    RankTotal(k, l);
  }

  /** Whom a feed shows: the caller, and everyone with a visible item whom the caller has not muted, or wants shown regardless. */
  lemma ListedIs(r: Reader, includeMuted: bool, a: Uuid)
    ensures Listed(r, includeMuted, a) <==>
      (exists s :: VisibleBy(r, a, s))
      && (includeMuted || a == r.viewer || !(a in r.g.users && (r.viewer, r.g.users[a].github) in r.g.mutes))
  {
  }

  lemma AuthorsAreListed(r: Reader, includeMuted: bool, rows: seq<FeedRow>, a: Uuid)
    requires FeedAnswer(r, includeMuted, rows)
    ensures a in Authors(rows) <==> Listed(r, includeMuted, a)
    ensures a in Authors(rows) <==>
      (exists s :: VisibleBy(r, a, s))
      && (includeMuted || a == r.viewer || !(a in r.g.users && (r.viewer, r.g.users[a].github) in r.g.mutes))
  {
    hide IsRank, RowLess, VisibleToViewer, Muted, Authors;
    AuthorsFacts(rows);
    ListedIs(r, includeMuted, a);
    if Listed(r, includeMuted, a) {
      var s :| VisibleBy(r, a, s);
      var i :| 0 <= i < |rows| && rows[i].story == s;
      assert RowRight(r, rows[i]);
    }
  }

  /** The caller's own group sorts before everyone else's, so no limit can cut it off. */
  lemma SelfIsFirst(r: Reader, includeMuted: bool, rows: seq<FeedRow>)
    requires GitHubIdsUnique(r.g) && FeedAnswer(r, includeMuted, rows)
    ensures HasVisible(r, r.viewer) ==> Authors(rows) != [] && Authors(rows)[0] == r.viewer
  {
    if HasVisible(r, r.viewer) {
      AuthorsAreListed(r, includeMuted, rows, r.viewer);
      var order := Authors(rows);
      var i :| 0 <= i < |order| && order[i] == r.viewer;
      if i > 0 {
        var p, q := FirstRows(rows, 0, i);
        assert RowRight(r, rows[p]) && RowRight(r, rows[q]) && !RowLess(rows[q], rows[p]);
        AuthorsFacts(rows);
      }
    }
  }

  /** One author's rows are adjacent in the answer. */
  lemma RowsContiguous(r: Reader, includeMuted: bool, rows: seq<FeedRow>, i: nat, k: nat, j: nat)
    requires GitHubIdsUnique(r.g) && FeedAnswer(r, includeMuted, rows)
    requires i < k < j < |rows| && rows[i].author == rows[j].author
    ensures rows[k].author == rows[i].author
  {
    assert RowRight(r, rows[i]) && RowRight(r, rows[k]) && RowRight(r, rows[j]);
    assert !RowLess(rows[k], rows[i]) && !RowLess(rows[j], rows[k]);
    RankUnique(r, rows[i].author, rows[i].rank, rows[j].rank);
    RankTotal(rows[i].rank, rows[k].rank);
  }

  // -------------------------------------------------------------------- groups

  lemma GroupIsSequence(r: Reader, includeMuted: bool, rows: seq<FeedRow>, author: Uuid)
    requires FeedAnswer(r, includeMuted, rows) && Listed(r, includeMuted, author)
    ensures var g := GroupOf(author, ItemsOf(rows, author));
      IsSequence(r, author, g.items, g.seen) && (g.hasUnseen <==> HasUnseen(r, author))
  {
    hide IsRank, ItemsOf, GroupOf, Listed;
    var items := ItemsOf(rows, author);
    var g := GroupOf(author, items);
    ItemsFacts(rows, author);
    forall i | 0 <= i < |items| ensures VisibleBy(r, author, items[i].story) && items[i].seen == Seen(r, items[i].story) {
      assert items[i] in rows;
    }
    forall s | VisibleBy(r, author, s) ensures s in g.items {
      GroupHolds(r, includeMuted, rows, author, s);
    }
    forall i, j | 0 <= i < j < |items|
      ensures items[i].story != items[j].story && PublishedAt(r, items[i].story) <= PublishedAt(r, items[j].story)
    {
      GroupOrdered(r, includeMuted, rows, author, i, j);
    }
    if HasUnseen(r, author) {
      var s :| VisibleBy(r, author, s) && !Seen(r, s);
      var i :| 0 <= i < |g.items| && g.items[i] == s;
      assert !items[i].seen;
    }
  }

  lemma GroupHolds(r: Reader, includeMuted: bool, rows: seq<FeedRow>, author: Uuid, s: Uuid)
    requires FeedAnswer(r, includeMuted, rows) && Listed(r, includeMuted, author) && VisibleBy(r, author, s)
    ensures s in GroupOf(author, ItemsOf(rows, author)).items
  {
    hide IsRank, ItemsOf, GroupOf;
    var items := ItemsOf(rows, author);
    ItemsFacts(rows, author);
    var i :| 0 <= i < |rows| && rows[i].story == s;
    assert RowRight(r, rows[i]) && rows[i] in items;
    var k :| 0 <= k < |items| && items[k] == rows[i];
    assert GroupOf(author, items).items[k] == s;
  }

  lemma GroupOrdered(r: Reader, includeMuted: bool, rows: seq<FeedRow>, author: Uuid, i: nat, j: nat)
    requires FeedAnswer(r, includeMuted, rows) && i < j < |ItemsOf(rows, author)|
    ensures var items := ItemsOf(rows, author);
      items[i].story != items[j].story && PublishedAt(r, items[i].story) <= PublishedAt(r, items[j].story)
  {
    var p, q := ItemsOrdered(rows, author, i, j);
    ItemsFacts(rows, author);
    assert RowRight(r, rows[p]) && RowRight(r, rows[q]) && !RowLess(rows[q], rows[p]);
    RankUnique(r, author, rows[p].rank, rows[q].rank);
  }

  /** The authors a feed shows beside the caller. */
  function Shown(rows: seq<FeedRow>, viewer: Uuid, limit: nat): seq<Uuid> {
    Take(Without(Authors(rows), viewer), limit)
  }

  lemma {:induction false} WithoutOrdered(order: seq<Uuid>, x: Uuid, i: nat, j: nat) returns (p: nat, q: nat)
    requires i < j < |Without(order, x)|
    ensures p < q < |order| && order[p] == Without(order, x)[i] && order[q] == Without(order, x)[j]
  {
    if order[0] == x {
      p, q := WithoutOrdered(order[1..], x, i, j);
      p, q := p + 1, q + 1;
    } else if i > 0 {
      p, q := WithoutOrdered(order[1..], x, i - 1, j - 1);
      p, q := p + 1, q + 1;
    } else {
      var b := Without(order[1..], x)[j - 1];
      WithoutFacts(order[1..], x);
      assert b in order[1..];
      var k :| 0 <= k < |order[1..]| && order[1..][k] == b;
      p, q := 0, k + 1;
    }
  }

  /** Everyone shown is listed, in strict rank order. */
  lemma ShownRanked(r: Reader, includeMuted: bool, rows: seq<FeedRow>, i: nat, j: nat, k: Rank, l: Rank)
    requires GitHubIdsUnique(r.g) && FeedAnswer(r, includeMuted, rows)
    requires i < j < |Without(Authors(rows), r.viewer)|
    requires IsRank(r, Without(Authors(rows), r.viewer)[i], k) && IsRank(r, Without(Authors(rows), r.viewer)[j], l)
    ensures RankLess(k, l) && ComesBefore(r, Without(Authors(rows), r.viewer)[i], Without(Authors(rows), r.viewer)[j])
  {
    hide FeedAnswer, IsRank, Authors, Without, ComesBefore, RankLess;
    WithoutFacts(Authors(rows), r.viewer);
    assert Without(Authors(rows), r.viewer)[i] in Without(Authors(rows), r.viewer);
    assert Without(Authors(rows), r.viewer)[j] in Without(Authors(rows), r.viewer);
    var p, q := WithoutOrdered(Authors(rows), r.viewer, i, j);
    AuthorsRanked(r, includeMuted, rows, p, q, k, l);
  }

  lemma ShownListed(r: Reader, includeMuted: bool, rows: seq<FeedRow>, a: Uuid)
    requires FeedAnswer(r, includeMuted, rows)
    ensures a in Without(Authors(rows), r.viewer) <==> Listed(r, includeMuted, a) && a != r.viewer
  {
    hide FeedAnswer, Authors, Without, Listed;
    WithoutFacts(Authors(rows), r.viewer);
    AuthorsAreListed(r, includeMuted, rows, a);
  }

  lemma ShownInOrder(r: Reader, includeMuted: bool, rows: seq<FeedRow>, i: nat, j: nat)
    requires GitHubIdsUnique(r.g) && FeedAnswer(r, includeMuted, rows)
    requires i < j < |Without(Authors(rows), r.viewer)|
    ensures ComesBefore(r, Without(Authors(rows), r.viewer)[i], Without(Authors(rows), r.viewer)[j])
  {
    hide IsRank, Without, Authors, ComesBefore, RankLess;
    var order := Without(Authors(rows), r.viewer);
    var k := RankInAnswer(r, includeMuted, rows, order[i]);
    var l := RankInAnswer(r, includeMuted, rows, order[j]);
    hide FeedAnswer;
    ShownRanked(r, includeMuted, rows, i, j, k, l);
  }

  lemma RankInAnswer(r: Reader, includeMuted: bool, rows: seq<FeedRow>, a: Uuid) returns (k: Rank)
    requires FeedAnswer(r, includeMuted, rows) && a in Without(Authors(rows), r.viewer)
    ensures IsRank(r, a, k)
  {
    hide IsRank, Without, Authors, Listed;
    WithoutFacts(Authors(rows), r.viewer);
    AuthorsFacts(rows);
    var i :| 0 <= i < |rows| && rows[i].author == a;
    assert RowRight(r, rows[i]);
    k := rows[i].rank;
  }

  /** Whoever the limit cut off ranks after everyone shown. */
  lemma CutRanksLast(r: Reader, includeMuted: bool, rows: seq<FeedRow>, limit: nat, a: Uuid)
    requires GitHubIdsUnique(r.g) && FeedAnswer(r, includeMuted, rows)
    requires Listed(r, includeMuted, a) && a != r.viewer && a !in Shown(rows, r.viewer, limit)
    ensures |Shown(rows, r.viewer, limit)| == limit
    ensures forall i :: 0 <= i < limit ==> ComesBefore(r, Shown(rows, r.viewer, limit)[i], a)
  {
    hide FeedAnswer, IsRank, Authors, Without, Listed, ComesBefore, RankLess;
    var order := Without(Authors(rows), r.viewer);
    ShownListed(r, includeMuted, rows, a);
    var j :| 0 <= j < |order| && order[j] == a;
    assert limit < |order| && Shown(rows, r.viewer, limit) == order[..limit];
    assert forall i :: 0 <= i < limit ==> order[i] == order[..limit][i] && order[..limit][i] in order[..limit];
    forall i | 0 <= i < limit
      ensures ComesBefore(r, order[i], a)
    {
      ShownInOrder(r, includeMuted, rows, i, j);
    }
  }

  lemma OwnGroupKept(r: Reader, includeMuted: bool, rows: seq<FeedRow>, limit: nat)
    requires GitHubIdsUnique(r.g) && FeedAnswer(r, includeMuted, rows)
    ensures r.viewer in Take(Authors(rows), limit + 1) <==> HasVisible(r, r.viewer)
  {
    hide FeedAnswer, Authors, HasVisible;
    SelfIsFirst(r, includeMuted, rows);
    OwnListed(r, includeMuted);
    AuthorsAreListed(r, includeMuted, rows, r.viewer);
    var order := Authors(rows);
    if HasVisible(r, r.viewer) {
      assert Take(order, limit + 1)[0] == r.viewer;
    }
  }

  lemma OwnListed(r: Reader, includeMuted: bool)
    ensures Listed(r, includeMuted, r.viewer) <==> HasVisible(r, r.viewer)
  {
  }

  /**
   * The feed as a caller gets it: the listed authors other than the caller, cut to the limit in rank
   * order, each with exactly its sequence; and the caller's own group whenever there is one.
   */
  method ReadFeed(ghost r: Reader, ghost includeMuted: bool, viewer: Uuid, limit: int, rows: seq<FeedRow>)
    returns (out: seq<Group>, me: Option<Group>)
    requires viewer == r.viewer && GitHubIdsUnique(r.g) && FeedAnswer(r, includeMuted, rows)
    ensures |out| <= if 1 <= limit <= 50 then limit else 25
    ensures forall i :: 0 <= i < |out| ==> out[i].author != viewer && Listed(r, includeMuted, out[i].author)
    ensures forall i, j :: 0 <= i < j < |out| ==> ComesBefore(r, out[i].author, out[j].author)
    ensures forall a :: Listed(r, includeMuted, a) && a != viewer && (forall i :: 0 <= i < |out| ==> out[i].author != a) ==>
              |out| == (if 1 <= limit <= 50 then limit else 25)
              && forall i :: 0 <= i < |out| ==> ComesBefore(r, out[i].author, a)
    ensures forall i :: 0 <= i < |out| ==>
              IsSequence(r, out[i].author, out[i].items, out[i].seen) && (out[i].hasUnseen <==> HasUnseen(r, out[i].author))
    ensures me.Some? <==> HasVisible(r, viewer)
    ensures me.Some? ==>
              IsSequence(r, viewer, me.value.items, me.value.seen) && (me.value.hasUnseen <==> HasUnseen(r, viewer))
  {
    hide ComesBefore;
    hide FeedAnswer, IsRank, IsSequence, Listed, HasUnseen, HasVisible, ItemsOf, GroupOf, Authors, Without, GitHubIdsUnique;
    out, me := BuildFeed(viewer, limit, rows);
    ghost var shown := Shown(rows, viewer, Limit(limit));
    ghost var order := Without(Authors(rows), viewer);
    OwnGroupKept(r, includeMuted, rows, Limit(limit));
    OwnListed(r, includeMuted);
    assert forall i :: 0 <= i < |out| ==> out[i].author == shown[i] && shown[i] == order[i];
    if me.Some? {
      GroupIsSequence(r, includeMuted, rows, viewer);
    }
    forall i | 0 <= i < |out|
      ensures out[i].author != viewer && Listed(r, includeMuted, out[i].author)
      ensures IsSequence(r, out[i].author, out[i].items, out[i].seen) && (out[i].hasUnseen <==> HasUnseen(r, out[i].author))
    {
      assert order[i] in order;
      ShownListed(r, includeMuted, rows, order[i]);
      GroupIsSequence(r, includeMuted, rows, order[i]);
    }
    forall i, j | 0 <= i < j < |out|
      ensures ComesBefore(r, out[i].author, out[j].author)
    {
      ShownInOrder(r, includeMuted, rows, i, j);
    }
    forall a | Listed(r, includeMuted, a) && a != viewer && forall i :: 0 <= i < |out| ==> out[i].author != a
      ensures |out| == Limit(limit)
      ensures forall i :: 0 <= i < |out| ==> ComesBefore(r, out[i].author, a)
    {
      CutRanksLast(r, includeMuted, rows, Limit(limit), a);
    }
  }

  // ----------------------------------------------------------------- agreement

  ghost predicate DistinctTimes(r: Reader, author: Uuid) {
    forall s, t :: VisibleBy(r, author, s) && VisibleBy(r, author, t) && PublishedAt(r, s) == PublishedAt(r, t) ==> s == t
  }

  ghost predicate Ascending(r: Reader, items: seq<Uuid>) {
    forall i, j :: 0 <= i < j < |items| ==> PublishedAt(r, items[i]) < PublishedAt(r, items[j])
  }

  lemma LastSame(r: Reader, s: seq<Uuid>, t: seq<Uuid>)
    requires s != [] && t != [] && Ascending(r, s) && Ascending(r, t) && forall x :: x in s <==> x in t
    ensures s[|s| - 1] == t[|t| - 1]
  {
    hide PublishedAt;
    assert s[|s| - 1] in t && t[|t| - 1] in s;
  }

  lemma DropLast(r: Reader, s: seq<Uuid>, x: Uuid)
    requires s != [] && Ascending(r, s)
    ensures x in s[..|s| - 1] <==> x in s && x != s[|s| - 1]
    ensures Ascending(r, s[..|s| - 1])
  {
    hide PublishedAt;
    assert s == s[..|s| - 1] + [s[|s| - 1]];
  }

  lemma {:induction false} AscendingUnique(r: Reader, s: seq<Uuid>, t: seq<Uuid>)
    requires Ascending(r, s) && Ascending(r, t) && forall x :: x in s <==> x in t
    ensures s == t
    decreases |s|
  {
    assert s != [] ==> s[0] in s;
    assert t != [] ==> t[0] in t;
    if s != [] && t != [] {
      LastSame(r, s, t);
      var s', t' := s[..|s| - 1], t[..|t| - 1];
      forall x ensures x in s' <==> x in t' {
        DropLast(r, s, x);
        DropLast(r, t, x);
      }
      DropLast(r, s, s[0]);
      DropLast(r, t, t[0]);
      AscendingUnique(r, s', t');
      assert s == s' + [s[|s| - 1]] && t == t' + [t[|t| - 1]];
    }
  }

  /** With distinct publication times, everyone who lists an author's items lists the same ones in the same order. */
  lemma SequenceUnique(r: Reader, author: Uuid, items: seq<Uuid>, seen: seq<bool>, items': seq<Uuid>, seen': seq<bool>)
    requires DistinctTimes(r, author)
    requires IsSequence(r, author, items, seen) && IsSequence(r, author, items', seen')
    ensures items == items' && seen == seen'
  {
    forall x ensures x in items <==> x in items' {}
    AscendingUnique(r, items, items');
  }

  /** The author query's answer is that author's sequence. */
  lemma SequenceAnswerIsSequence(r: Reader, author: Uuid, rows: seq<SequenceRow>, items: seq<Uuid>, seen: seq<bool>)
    requires GitHubIdsUnique(r.g) && author in r.g.users && SequenceAnswer(r, r.g.users[author].github, rows)
    requires |items| == |seen| == |rows| && forall i :: 0 <= i < |rows| ==> items[i] == rows[i].story && seen[i] == rows[i].seen
    ensures IsSequence(r, author, items, seen)
  {
    forall s ensures AuthoredBy(r, r.g.users[author].github, s) <==> VisibleBy(r, author, s) {}
    forall s | VisibleBy(r, author, s) ensures s in items {
      var i :| 0 <= i < |rows| && rows[i].story == s;
      assert items[i] == s;
    }
  }

  /** A feed group is the author's sequence, item for item and flag for flag. */
  lemma FeedAgreesWithSequence(r: Reader, includeMuted: bool, feed: seq<FeedRow>, author: Uuid, rows: seq<SequenceRow>,
                               items: seq<Uuid>, seen: seq<bool>)
    requires GitHubIdsUnique(r.g) && author in r.g.users && DistinctTimes(r, author)
    requires FeedAnswer(r, includeMuted, feed) && Listed(r, includeMuted, author)
    requires SequenceAnswer(r, r.g.users[author].github, rows)
    requires |items| == |seen| == |rows| && forall i :: 0 <= i < |rows| ==> items[i] == rows[i].story && seen[i] == rows[i].seen
    ensures GroupOf(author, ItemsOf(feed, author)).items == items
    ensures GroupOf(author, ItemsOf(feed, author)).seen == seen
  {
    hide FeedAnswer, SequenceAnswer, Listed, ItemsOf, GroupOf, DistinctTimes, GitHubIdsUnique, IsSequence;
    GroupIsSequence(r, includeMuted, feed, author);
    SequenceAnswerIsSequence(r, author, rows, items, seen);
    var g := GroupOf(author, ItemsOf(feed, author));
    SequenceUnique(r, author, g.items, g.seen, items, seen);
  }

  /** The ring lights up exactly when the sequence opens, and shows unseen exactly when it does. */
  lemma RingAgreesWithSequence(r: Reader, target: GitHubId, rows: seq<SequenceRow>)
    requires SequenceAnswer(r, target, rows)
    ensures Ring(r, target).hasActive <==> rows != []
    ensures Ring(r, target).hasUnseen <==> exists i :: 0 <= i < |rows| && !rows[i].seen
    ensures Ring(r, target).muted <==> (r.viewer, target) in r.g.mutes
    ensures Ring(r, target).isSelf <==> target == r.github
  {
    if rows != [] {
      assert AuthoredBy(r, target, rows[0].story);
    }
    if s :| AuthoredBy(r, target, s) && !Seen(r, s) {
      var i :| 0 <= i < |rows| && rows[i].story == s;
      assert !rows[i].seen;
    }
    if i :| 0 <= i < |rows| && !rows[i].seen {
      assert AuthoredBy(r, target, rows[i].story) && !Seen(r, rows[i].story);
    }
  }

  // ------------------------------------------------- what the reads depend on

  /** Two table states no read of this caller can tell apart. */
  ghost predicate SameView(r: Reader, q: Reader) {
    && r.g == q.g && r.viewer == q.viewer && r.github == q.github && r.now == q.now
    && (forall s :: Visible(r, s) <==> Visible(q, s))
    && (forall s :: Visible(r, s) ==> r.db.stories[s] == q.db.stories[s] && (Seen(r, s) <==> Seen(q, s)))
  }

  lemma SameVisibleBy(r: Reader, q: Reader)
    requires SameView(r, q)
    ensures forall a, s :: VisibleBy(r, a, s) <==> VisibleBy(q, a, s)
    ensures forall t, s :: AuthoredBy(r, t, s) <==> AuthoredBy(q, t, s)
  {
  }

  lemma SameRanks(r: Reader, q: Reader, a: Uuid, k: Rank)
    requires SameView(r, q)
    ensures IsRank(r, a, k) ==> IsRank(q, a, k)
    ensures HasVisible(r, a) <==> HasVisible(q, a)
  {
    hide SameView, VisibleToViewer;
    SameVisibleBy(r, q);
    SameBasics(r, q, a);
    if HasVisible(r, a) {
      var s :| VisibleBy(r, a, s);
      assert VisibleBy(q, a, s);
    }
    if HasVisible(q, a) {
      var s :| VisibleBy(q, a, s);
      assert VisibleBy(r, a, s);
    }
    if IsRank(r, a, k) {
      var s :| VisibleBy(r, a, s) && r.db.stories[s].publishedAt == Some(k.latest);
      assert VisibleBy(q, a, s) && q.db.stories[s].publishedAt == Some(k.latest);
    }
  }

  lemma SameBasics(r: Reader, q: Reader, a: Uuid)
    requires SameView(r, q)
    ensures HasUnseen(r, a) <==> HasUnseen(q, a)
    ensures r.g == q.g && r.viewer == q.viewer && ProvenanceClass(r, a) == ProvenanceClass(q, a) && Muted(r, a) == Muted(q, a)
    ensures forall s :: VisibleBy(r, a, s) ==> r.db.stories[s] == q.db.stories[s]
  {
    SameVisibleBy(r, q);
    if HasUnseen(r, a) {
      var s :| VisibleBy(r, a, s) && !Seen(r, s);
      assert VisibleBy(q, a, s) && !Seen(q, s);
    }
    if HasUnseen(q, a) {
      var s :| VisibleBy(q, a, s) && !Seen(q, s);
      assert VisibleBy(r, a, s) && !Seen(r, s);
    }
  }

  lemma SameFeed(r: Reader, q: Reader, includeMuted: bool, rows: seq<FeedRow>)
    requires SameView(r, q) && FeedAnswer(r, includeMuted, rows)
    ensures FeedAnswer(q, includeMuted, rows)
  {
    hide IsRank, HasVisible, RowLess;
    SameVisibleBy(r, q);
    forall i | 0 <= i < |rows| ensures RowRight(q, rows[i]) && Listed(q, includeMuted, rows[i].author) {
      SameRanks(r, q, rows[i].author, rows[i].rank);
      SameBasics(r, q, rows[i].author);
    }
    forall s | Visible(q, s) && Listed(q, includeMuted, q.db.stories[s].author)
      ensures exists i :: 0 <= i < |rows| && rows[i].story == s
    {
      var a := q.db.stories[s].author;
      SameRanks(r, q, a, Rank(false, false, 0, 0, 0));
      SameBasics(r, q, a);
      assert Visible(r, s) && Listed(r, includeMuted, r.db.stories[s].author);
    }
  }

  lemma SameSequence(r: Reader, q: Reader, target: GitHubId, rows: seq<SequenceRow>)
    requires SameView(r, q)
    ensures SequenceAnswer(r, target, rows) ==> SequenceAnswer(q, target, rows)
    ensures Ring(r, target) == Ring(q, target)
  {
    SameVisibleBy(r, q);
    if s :| AuthoredBy(r, target, s) && !Seen(r, s) {
      assert AuthoredBy(q, target, s) && !Seen(q, s);
    }
    if s :| AuthoredBy(q, target, s) && !Seen(q, s) {
      assert AuthoredBy(r, target, s) && !Seen(r, s);
    }
    if s :| AuthoredBy(r, target, s) { assert AuthoredBy(q, target, s); }
    if s :| AuthoredBy(q, target, s) { assert AuthoredBy(r, target, s); }
  }
}
