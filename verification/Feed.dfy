/** The feed, one author's sequence and the avatar ring: three computations over one predicate. */
module Feed {
  import opened Options
  import opened ObjectKeys
  import opened Tables
  import opened SocialGraph
  import opened Visibility

  // ------------------------------------------------------ what the query ranks

  /** The ORDER BY columns an author contributes. */
  datatype Rank = Rank(self: bool, unseen: bool, tier: nat, latest: int, github: GitHubId)

  predicate RankLess(a: Rank, b: Rank) {
    if a.self != b.self then a.self
    else if a.unseen != b.unseen then a.unseen
    else if a.tier != b.tier then a.tier < b.tier
    else if a.latest != b.latest then a.latest > b.latest
    else a.github < b.github
  }

  datatype FeedRow = FeedRow(story: Uuid, author: Uuid, publishedAt: int, seen: bool, rank: Rank)

  predicate RowLess(a: FeedRow, b: FeedRow) {
    RankLess(a.rank, b.rank) || (a.rank == b.rank && a.publishedAt < b.publishedAt)
  }

  ghost predicate VisibleBy(r: Reader, author: Uuid, story: Uuid) {
    Visible(r, story) && r.db.stories[story].author == author
  }

  ghost predicate HasVisible(r: Reader, author: Uuid) {
    exists s :: VisibleBy(r, author, s)
  }

  ghost predicate HasUnseen(r: Reader, author: Uuid) {
    exists s :: VisibleBy(r, author, s) && !Seen(r, s)
  }

  predicate Muted(r: Reader, author: Uuid) {
    author in r.g.users && (r.viewer, r.g.users[author].github) in r.g.mutes
  }

  /** self, native follow, import-only follow, everyone else. */
  function ProvenanceClass(r: Reader, author: Uuid): nat {
    if author in r.g.users && Follows(r.g, r.viewer, r.g.users[author].github) then
      if r.g.relationships[(r.viewer, r.g.users[author].github)].provenance.StoriesNative? then 1 else 2
    else if author == r.viewer then 0 else 3
  }

  ghost predicate IsLatest(r: Reader, author: Uuid, latest: int) {
    && (exists s :: VisibleBy(r, author, s) && r.db.stories[s].publishedAt == Some(latest))
    && (forall s :: VisibleBy(r, author, s) ==> r.db.stories[s].publishedAt.value <= latest)
  }

  ghost predicate IsRank(r: Reader, author: Uuid, k: Rank) {
    && author in r.g.users && k.github == r.g.users[author].github
    && k.self == (author == r.viewer)
    && k.unseen == HasUnseen(r, author)
    && k.tier == ProvenanceClass(r, author)
    && IsLatest(r, author, k.latest)
  }

  ghost predicate Listed(r: Reader, includeMuted: bool, author: Uuid) {
    HasVisible(r, author) && (includeMuted || !Muted(r, author) || author == r.viewer)
  }

  ghost predicate RowRight(r: Reader, row: FeedRow) {
    && VisibleBy(r, row.author, row.story)
    && r.db.stories[row.story].publishedAt == Some(row.publishedAt)
    && row.seen == Seen(r, row.story)
    && IsRank(r, row.author, row.rank)
  }

  /** What the ranking query may answer: each listed author's visible items once, in ORDER BY order. */
  ghost predicate FeedAnswer(r: Reader, includeMuted: bool, rows: seq<FeedRow>) {
    && (forall i :: 0 <= i < |rows| ==> RowRight(r, rows[i]) && Listed(r, includeMuted, rows[i].author))
    && (forall s :: Visible(r, s) && Listed(r, includeMuted, r.db.stories[s].author) ==>
         exists i :: 0 <= i < |rows| && rows[i].story == s)
    && (forall i, j :: 0 <= i < j < |rows| ==> rows[i].story != rows[j].story)
    && (forall i, j :: 0 <= i < j < |rows| ==> !RowLess(rows[j], rows[i]))
  }

  // ------------------------------------------------------------- the grouping

  datatype Group = Group(author: Uuid, items: seq<Uuid>, seen: seq<bool>, hasUnseen: bool)

  /** Authors by first appearance. */
  function Authors(rows: seq<FeedRow>): seq<Uuid> {
    if rows == [] then []
    else
      var rest, last := Authors(rows[..|rows| - 1]), rows[|rows| - 1];
      if last.author in rest then rest else rest + [last.author]
  }

  function ItemsOf(rows: seq<FeedRow>, author: Uuid): seq<FeedRow> {
    if rows == [] then []
    else
      var rest, last := ItemsOf(rows[..|rows| - 1], author), rows[|rows| - 1];
      if last.author == author then rest + [last] else rest
  }

  function GroupOf(author: Uuid, items: seq<FeedRow>): (g: Group)
    ensures |g.items| == |g.seen| == |items|
    ensures forall i :: 0 <= i < |items| ==> g.items[i] == items[i].story && g.seen[i] == items[i].seen
    ensures g.author == author && (g.hasUnseen <==> exists i :: 0 <= i < |items| && !items[i].seen)
  {
    if items == [] then Group(author, [], [], false)
    else
      var rest, last := GroupOf(author, items[..|items| - 1]), items[|items| - 1];
      Group(author, rest.items + [last.story], rest.seen + [last.seen], rest.hasUnseen || !last.seen)
  }

  function Limit(limit: int): nat {
    if limit <= 0 || limit > 50 then 25 else limit
  }

  function Without(order: seq<Uuid>, x: Uuid): seq<Uuid> {
    if order == [] then []
    else if order[0] == x then Without(order[1..], x) else [order[0]] + Without(order[1..], x)
  }

  lemma {:induction false} AuthorsFacts(rows: seq<FeedRow>)
    ensures forall i, j :: 0 <= i < j < |Authors(rows)| ==> Authors(rows)[i] != Authors(rows)[j]
    ensures forall a :: a in Authors(rows) <==> exists i :: 0 <= i < |rows| && rows[i].author == a
  {
    if rows != [] {
      var init, last := rows[..|rows| - 1], rows[|rows| - 1];
      AuthorsFacts(init);
      forall a ensures a in Authors(rows) <==> exists i :: 0 <= i < |rows| && rows[i].author == a {
        if a in Authors(rows) {
          if a != last.author {
            var i :| 0 <= i < |init| && init[i].author == a;
            assert rows[i].author == a;
          }
        }
        if i :| 0 <= i < |rows| && rows[i].author == a {
          if i < |init| {
            assert init[i].author == a;
          }
        }
      }
    }
  }

  lemma {:induction false} ItemsFacts(rows: seq<FeedRow>, author: Uuid)
    ensures forall k :: 0 <= k < |ItemsOf(rows, author)| ==> ItemsOf(rows, author)[k] in rows && ItemsOf(rows, author)[k].author == author
    ensures forall i :: 0 <= i < |rows| && rows[i].author == author ==> rows[i] in ItemsOf(rows, author)
  {
    if rows != [] {
      ItemsFacts(rows[..|rows| - 1], author);
      assert rows == rows[..|rows| - 1] + [rows[|rows| - 1]];
    }
  }

  /** A group keeps the rows' relative order: any later-never-before relation passes on to it. */
  lemma {:induction false} ItemsOrdered(rows: seq<FeedRow>, author: Uuid, k: nat, l: nat) returns (i: nat, j: nat)
    requires k < l < |ItemsOf(rows, author)|
    ensures i < j < |rows| && rows[i] == ItemsOf(rows, author)[k] && rows[j] == ItemsOf(rows, author)[l]
  {
    var init, last := rows[..|rows| - 1], rows[|rows| - 1];
    if last.author == author && l == |ItemsOf(rows, author)| - 1 {
      ItemsFacts(init, author);
      var row := ItemsOf(init, author)[k];
      i :| 0 <= i < |init| && init[i] == row;
      j := |rows| - 1;
    } else {
      i, j := ItemsOrdered(init, author, k, l);
    }
  }

  function Groups(rows: seq<FeedRow>, authors: seq<Uuid>): seq<Group> {
    seq(|authors|, i requires 0 <= i < |authors| => GroupOf(authors[i], ItemsOf(rows, authors[i])))
  }

  function Take<A>(s: seq<A>, n: nat): seq<A> {
    if n < |s| then s[..n] else s
  }

  lemma {:induction false} WithoutExtend(order: seq<Uuid>, x: Uuid, next: Uuid)
    ensures Without(order + [next], x) == Without(order, x) + if next == x then [] else [next]
  {
    if order == [] {
      assert [next][1..] == [];
    } else {
      WithoutExtend(order[1..], x, next);
      assert (order + [next])[1..] == order[1..] + [next];
    }
  }

  lemma {:induction false} WithoutFacts(order: seq<Uuid>, x: Uuid)
    ensures |Without(order, x)| <= |order|
    ensures x !in order ==> Without(order, x) == order
    ensures forall a :: a in Without(order, x) <==> a in order && a != x
  {
    if order != [] {
      WithoutFacts(order[1..], x);
    }
  }

  lemma AuthorsExtend(rows: seq<FeedRow>, i: nat)
    requires i < |rows|
    ensures var before, a := Authors(rows[..i]), rows[i].author;
      Authors(rows[..i + 1]) == if a in before then before else before + [a]
    ensures forall a :: ItemsOf(rows[..i + 1], a) == ItemsOf(rows[..i], a) + if rows[i].author == a then [rows[i]] else []
  {
    assert rows[..i + 1][..i] == rows[..i];
  }

  ghost predicate Grouped(rows: seq<FeedRow>, order: seq<Uuid>, groups: map<Uuid, Group>) {
    && order == Authors(rows)
    && (forall a :: a in groups <==> a in order)
    && (forall a :: a in groups ==> groups[a] == GroupOf(a, ItemsOf(rows, a)))
    && (forall a :: a !in groups ==> ItemsOf(rows, a) == [])
  }

  function Started(groups: map<Uuid, Group>, author: Uuid): Group {
    if author in groups then groups[author] else Group(author, [], [], false)
  }

  lemma GroupedStep(rows: seq<FeedRow>, i: nat, order: seq<Uuid>, groups: map<Uuid, Group>, g: Group)
    requires i < |rows| && Grouped(rows[..i], order, groups)
    requires var row, s := rows[i], Started(groups, rows[i].author);
      g == Group(row.author, s.items + [row.story], s.seen + [row.seen], s.hasUnseen || !row.seen)
    ensures Grouped(rows[..i + 1], if rows[i].author in order then order else order + [rows[i].author],
                    groups[rows[i].author := g])
  {
    hide Authors, ItemsOf, GroupOf;
    AuthorsExtend(rows, i);
    var a := rows[i].author;
    GroupExtend(a, ItemsOf(rows[..i], a), rows[i]);
    NoRows(a);
    forall b | b != a ensures ItemsOf(rows[..i + 1], b) == ItemsOf(rows[..i], b) {
      assert ItemsOf(rows[..i], b) + [] == ItemsOf(rows[..i], b);
    }
  }

  lemma NoRows(author: Uuid)
    ensures GroupOf(author, []) == Group(author, [], [], false)
  {
  }

  /** Two passes: collect each author's rows in a map, then emit groups until the limit. */
  method BuildFeed(viewer: Uuid, limit: int, rows: seq<FeedRow>) returns (out: seq<Group>, me: Option<Group>)
    ensures out == Groups(rows, Take(Without(Authors(rows), viewer), Limit(limit)))
    ensures me == if viewer in Take(Authors(rows), Limit(limit) + 1)
                  then Some(GroupOf(viewer, ItemsOf(rows, viewer))) else None
  {
    hide Grouped, Authors, ItemsOf, GroupOf;
    var order: seq<Uuid> := [];
    var groups: map<Uuid, Group> := map[];
    NothingGrouped(rows);
    for i := 0 to |rows|
      invariant Grouped(rows[..i], order, groups)
    {
      var row := rows[i];
      GroupedKeys(rows[..i], order, groups);
      var g := Group(row.author, [], [], false);
      var known := row.author in groups;
      if known {
        g := groups[row.author];
      }
      g := g.(items := g.items + [row.story], seen := g.seen + [row.seen]);
      if !row.seen {
        g := g.(hasUnseen := true);
      }
      GroupedStep(rows, i, order, groups, g);
      if !known {
        order := order + [row.author];
      }
      groups := groups[row.author := g];
    }
    assert rows[..|rows|] == rows;
    GroupedAll(rows, order, groups);
    out, me := EmitGroups(viewer, Limit(limit), rows, order, groups);
  }

  lemma NothingGrouped(rows: seq<FeedRow>)
    ensures Grouped(rows[..0], [], map[])
  {
  }

  lemma GroupedKeys(rows: seq<FeedRow>, order: seq<Uuid>, groups: map<Uuid, Group>)
    requires Grouped(rows, order, groups)
    ensures forall a :: a in groups <==> a in order
    ensures forall a :: a in groups ==> groups[a].author == a
  {
  }

  lemma GroupedAll(rows: seq<FeedRow>, order: seq<Uuid>, groups: map<Uuid, Group>)
    requires Grouped(rows, order, groups)
    ensures order == Authors(rows) && forall a :: a in order ==> a in groups
    ensures forall a :: a in groups ==> groups[a] == GroupOf(a, ItemsOf(rows, a))
  {
  }

  lemma GroupExtend(author: Uuid, items: seq<FeedRow>, row: FeedRow)
    ensures var g, g' := GroupOf(author, items), GroupOf(author, items + [row]);
      g' == Group(author, g.items + [row.story], g.seen + [row.seen], g.hasUnseen || !row.seen)
  {
    assert (items + [row])[..|items|] == items;
  }

  method EmitGroups(viewer: Uuid, limit: nat, rows: seq<FeedRow>, order: seq<Uuid>, groups: map<Uuid, Group>)
    returns (out: seq<Group>, me: Option<Group>)
    requires order == Authors(rows) && forall a :: a in order ==> a in groups
    requires forall a :: a in groups ==> groups[a] == GroupOf(a, ItemsOf(rows, a))
    ensures out == Groups(rows, Take(Without(order, viewer), limit))
    ensures me == if viewer in Take(order, limit + 1) then Some(GroupOf(viewer, ItemsOf(rows, viewer))) else None
  {
    hide Authors, ItemsOf, GroupOf, Groups, Without, Take;
    NoGroups(rows, viewer, limit);
    out, me := [], None;
    ghost var done: seq<Uuid> := [];
    var i := 0;
    while i < |order|
      invariant 0 <= i <= |order|
      invariant done == Without(order[..i], viewer) && |done| <= limit
      invariant out == Groups(rows, done)
      invariant viewer !in order[..i] ==> |done| == i && me == None
      invariant viewer in order[..i] ==>
                  me == Some(GroupOf(viewer, ItemsOf(rows, viewer))) && viewer in Take(order, limit + 1)
    {
      var id := order[i];
      assert order[..i + 1] == order[..i] + [id];
      WithoutExtend(order[..i], viewer, id);
      WithoutFacts(order[..i], viewer);
      if id == viewer {
        me := Some(groups[id]);
        ViewerReached(order, i, viewer, limit, |done|);
        i := i + 1;
        continue;
      }
      GroupsExtend(rows, done, id);
      if |out| >= limit {
        PrefixTake(order, i, viewer, limit);
        return;
      }
      out := out + [groups[id]];
      done := done + [id];
      i := i + 1;
    }
    assert order[..i] == order;
    TakeAll(order, viewer, limit);
  }

  lemma NoGroups(rows: seq<FeedRow>, viewer: Uuid, limit: nat)
    ensures Without([], viewer) == [] && Groups(rows, []) == []
  {
  }

  lemma GroupsExtend(rows: seq<FeedRow>, done: seq<Uuid>, id: Uuid)
    ensures Groups(rows, done + [id]) == Groups(rows, done) + [GroupOf(id, ItemsOf(rows, id))]
    ensures |Groups(rows, done)| == |done|
  {
  }

  lemma ViewerReached(order: seq<Uuid>, i: nat, viewer: Uuid, limit: nat, others: nat)
    requires i < |order| && order[i] == viewer && others <= limit && (viewer !in order[..i] ==> others == i)
    requires viewer in order[..i] ==> viewer in Take(order, limit + 1)
    ensures viewer in Take(order, limit + 1)
  {
    if viewer !in order[..i] {
      assert Take(order, limit + 1)[i] == viewer;
    }
  }

  lemma TakeAll(order: seq<Uuid>, viewer: Uuid, limit: nat)
    ensures |Without(order, viewer)| <= limit ==> Take(Without(order, viewer), limit) == Without(order, viewer)
    ensures viewer !in order ==> viewer !in Take(order, limit + 1)
  {
  }

  lemma {:induction false} WithoutPrefix(order: seq<Uuid>, i: nat, x: Uuid)
    requires i <= |order|
    ensures Without(order[..i], x) <= Without(order, x)
    decreases |order| - i
  {
    if i < |order| {
      assert order[..i + 1] == order[..i] + [order[i]];
      WithoutExtend(order[..i], x, order[i]);
      WithoutPrefix(order, i + 1, x);
    } else {
      assert order[..i] == order;
    }
  }

  lemma PrefixTake(order: seq<Uuid>, i: nat, x: Uuid, limit: nat)
    requires i < |order| && order[i] != x && |Without(order[..i], x)| == limit
    requires x !in order[..i] ==> limit == i
    ensures Take(Without(order, x), limit) == Without(order[..i], x)
    ensures x !in order[..i] ==> x !in Take(order, limit + 1)
  {
    WithoutPrefix(order, i, x);
    if x !in order[..i] {
      assert Take(order, limit + 1) == order[..i] + [order[i]];
    }
  }

  // --------------------------------------------------- one author's sequence

  datatype SequenceRow = SequenceRow(story: Uuid, publishedAt: int, seen: bool)

  /** What the author query may answer: that author's visible items once each, oldest first. */
  ghost predicate SequenceAnswer(r: Reader, target: GitHubId, rows: seq<SequenceRow>) {
    && (forall i :: 0 <= i < |rows| ==>
         && AuthoredBy(r, target, rows[i].story)
         && r.db.stories[rows[i].story].publishedAt == Some(rows[i].publishedAt)
         && rows[i].seen == Seen(r, rows[i].story))
    && (forall s :: AuthoredBy(r, target, s) ==> exists i :: 0 <= i < |rows| && rows[i].story == s)
    && (forall i, j :: 0 <= i < j < |rows| ==> rows[i].story != rows[j].story)
    && (forall i, j :: 0 <= i < j < |rows| ==> rows[i].publishedAt <= rows[j].publishedAt)
  }

  ghost predicate AuthoredBy(r: Reader, target: GitHubId, story: Uuid) {
    Visible(r, story) && r.g.users[r.db.stories[story].author].github == target
  }

  datatype Sequence = Sequence(items: seq<Uuid>, seen: seq<bool>, hasUnseen: bool)

  /** `None` is ErrNotFound: no account and nothing visible answer alike. */
  method AuthorSequence(rows: seq<SequenceRow>) returns (r: Option<Sequence>)
    ensures r.None? <==> rows == []
    ensures r.Some? ==> |r.value.items| == |r.value.seen| == |rows|
    ensures r.Some? ==> forall i :: 0 <= i < |rows| ==> r.value.items[i] == rows[i].story && r.value.seen[i] == rows[i].seen
    ensures r.Some? ==> (r.value.hasUnseen <==> exists i :: 0 <= i < |rows| && !rows[i].seen)
  {
    var g := Sequence([], [], false);
    for i := 0 to |rows|
      invariant |g.items| == |g.seen| == i
      invariant forall j :: 0 <= j < i ==> g.items[j] == rows[j].story && g.seen[j] == rows[j].seen
      invariant g.hasUnseen <==> exists j :: 0 <= j < i && !rows[j].seen
    {
      g := g.(items := g.items + [rows[i].story], seen := g.seen + [rows[i].seen]);
      if !rows[i].seen {
        g := g.(hasUnseen := true);
      }
    }
    if |g.items| == 0 {
      return None;
    }
    return Some(g);
  }

  // -------------------------------------------------------------- avatar ring

  datatype RingStatus = RingStatus(hasActive: bool, hasUnseen: bool, muted: bool, isSelf: bool)

  ghost function Ring(r: Reader, target: GitHubId): RingStatus {
    RingStatus(
      exists s :: AuthoredBy(r, target, s),
      exists s :: AuthoredBy(r, target, s) && !Seen(r, s),
      (r.viewer, target) in r.g.mutes,
      target == r.github)
  }
}
