/** Reads the accounts a user follows on GitHub, page by page, without duplicates and up to a cap. */
module Following {
  import opened Options
  import opened ObjectKeys
  import opened SocialGraph
  import FollowGraph

  type Identity = FollowGraph.Identity

  const MAX_PAGES := 100
  const MAX_IMPORT := 5000

  /** One page of the listing and the address of the next; the last page has none. */
  datatype Page = Page(users: seq<Identity>, next: string)

  /** GitHub's answer to the n-th request, for an address; nothing when the request fails. */
  type Server = (nat, string) -> Option<Page>

  predicate Lists(out: seq<Identity>, id: GitHubId) {
    exists k :: 0 <= k < |out| && out[k].github == id
  }

  /** The first mention of every account, up to `max` in all, behind those already in `out`. */
  function Collected(out: seq<Identity>, users: seq<Identity>, max: nat): seq<Identity>
    decreases |users|
  {
    if users == [] || |out| >= max then out
    else Collected(if Lists(out, users[0].github) then out else out + [users[0]], users[1..], max)
  }

  /** The listing of a crawl that goes through all its pages. */
  function Listing(server: Server, url: string, page: nat): Option<seq<Identity>>
    requires page <= MAX_PAGES
    decreases MAX_PAGES - page
  {
    if url == "" || page == MAX_PAGES then Some([])
    else if server(page, url).None? then None
    else
      var rest := Listing(server, server(page, url).value.next, page + 1);
      if rest.None? then None else Some(server(page, url).value.users + rest.value)
  }

  /** The crawl as it goes: it stops at the cap without asking for further pages. */
  function Crawled(server: Server, url: string, page: nat, out: seq<Identity>, max: nat): Option<seq<Identity>>
    requires page <= MAX_PAGES
    decreases MAX_PAGES - page
  {
    if url == "" || page == MAX_PAGES || |out| >= max then Some(out)
    else if server(page, url).None? then None
    else Crawled(server, server(page, url).value.next, page + 1, Collected(out, server(page, url).value.users, max), max)
  }

  method Fetch(server: Server, first: string, max: int) returns (result: Option<seq<Identity>>)
    ensures max <= 0 ==> result == Some([])
    ensures max > 0 ==> result == Crawled(server, first, 0, [], max)
  {
    if max <= 0 {
      return Some([]);
    }
    var url := first;
    var seen: set<GitHubId> := {};
    var out: seq<Identity> := [];
    var page := 0;
    while url != "" && page < MAX_PAGES && |out| < max
      invariant 0 <= page <= MAX_PAGES
      invariant forall id :: id in seen <==> Lists(out, id)
      invariant Crawled(server, url, page, out, max) == Crawled(server, first, 0, [], max)
      decreases MAX_PAGES - page
    {
      var answer := server(page, url);
      if answer.None? {
        return None;
      }
      var users := answer.value.users;
      ghost var before := out;
      var i := 0;
      while i < |users|
        invariant 0 <= i <= |users| && |out| < max
        invariant forall id :: id in seen <==> Lists(out, id)
        invariant Collected(out, users[i..], max) == Collected(before, users, max)
      {
        var u := users[i];
        i := i + 1;
        assert users[i - 1..][1..] == users[i..];
        if u.github in seen {
          continue;
        }
        seen := seen + {u.github};
        ListsOneMore(out, u);
        out := out + [u];
        if |out| >= max {
          break;
        }
      }
      assert out == Collected(before, users, max);
      url := answer.value.next;
      page := page + 1;
    }
    return Some(out);
  }

  lemma ListsOneMore(out: seq<Identity>, u: Identity)
    ensures forall id :: Lists(out + [u], id) <==> Lists(out, id) || id == u.github
  {
    forall id
      ensures Lists(out + [u], id) <==> Lists(out, id) || id == u.github
    {
      var more := out + [u];
      assert more[|out|] == u;
      if Lists(out, id) {
        var k :| 0 <= k < |out| && out[k].github == id;
        assert more[k].github == id;
      }
    }
  }

  // ------------------------------------------------------------------ results

  lemma {:induction false} CollectedIsDistinct(out: seq<Identity>, users: seq<Identity>, max: nat)
    requires FollowGraph.Distinct(out) && |out| <= max
    ensures FollowGraph.Distinct(Collected(out, users, max)) && |Collected(out, users, max)| <= max
    decreases |users|
  {
    if users != [] && |out| < max {
      var next := if Lists(out, users[0].github) then out else out + [users[0]];
      forall i, j | 0 <= i < j < |next|
        ensures next[i].github != next[j].github
      {
        assert next[i] == out[i];
      }
      CollectedIsDistinct(next, users[1..], max);
    }
  }

  lemma {:induction false} CollectedJoin(out: seq<Identity>, a: seq<Identity>, b: seq<Identity>, max: nat)
    ensures Collected(out, a + b, max) == Collected(Collected(out, a, max), b, max)
    decreases |a|
  {
    if a == [] {
      assert a + b == b;
    } else if |out| < max {
      assert (a + b)[1..] == a[1..] + b;
      CollectedJoin(if Lists(out, a[0].github) then out else out + [a[0]], a[1..], b, max);
    }
  }

  /** Stopping at the cap loses nothing: the result is what the whole listing holds, without repetitions, up to the cap. */
  lemma {:induction false} CrawlIsListing(server: Server, url: string, page: nat, out: seq<Identity>, max: nat)
    requires page <= MAX_PAGES && Listing(server, url, page).Some?
    ensures Crawled(server, url, page, out, max) == Some(Collected(out, Listing(server, url, page).value, max))
    decreases MAX_PAGES - page
  {
    if url != "" && page < MAX_PAGES && |out| < max {
      var p := server(page, url).value;
      CrawlIsListing(server, p.next, page + 1, Collected(out, p.users, max), max);
      CollectedJoin(out, p.users, Listing(server, p.next, page + 1).value, max);
    }
  }

  /** The hundredth page, counted from zero, is the last that is asked for. */
  lemma HundredPages(server: Server, url: string, out: seq<Identity>, max: nat)
    ensures Crawled(server, url, 99, out, max) ==
      if url == "" || |out| >= max then Some(out)
      else if server(99, url).None? then None
      else Some(Collected(out, server(99, url).value.users, max))
  {
    if url != "" && |out| < max && server(99, url).Some? {
      var p := server(99, url).value;
      assert Crawled(server, p.next, 100, Collected(out, p.users, max), max) == Some(Collected(out, p.users, max));
    }
  }

  lemma {:induction false} CrawlIsDistinct(server: Server, url: string, page: nat, out: seq<Identity>, max: nat)
    requires page <= MAX_PAGES && FollowGraph.Distinct(out) && |out| <= max
    ensures var r := Crawled(server, url, page, out, max); r.Some? ==> FollowGraph.Distinct(r.value) && |r.value| <= max
    decreases MAX_PAGES - page
  {
    if url != "" && page < MAX_PAGES && |out| < max && server(page, url).Some? {
      var p := server(page, url).value;
      CollectedIsDistinct(out, p.users, max);
      CrawlIsDistinct(server, p.next, page + 1, Collected(out, p.users, max), max);
    }
  }

  /** The collected accounts are all that are listed, as long as the cap is not reached. */
  lemma {:induction false} CollectsAll(out: seq<Identity>, users: seq<Identity>, max: nat, id: GitHubId)
    ensures var r := Collected(out, users, max);
      && (Lists(r, id) ==> Lists(out, id) || Lists(users, id))
      && (|r| < max && (Lists(out, id) || Lists(users, id)) ==> Lists(r, id))
    decreases |users|
  {
    if users != [] && |out| < max {
      var next := if Lists(out, users[0].github) then out else out + [users[0]];
      ListsOneMore(out, users[0]);
      CollectsAll(next, users[1..], max, id);
      if Lists(users[1..], id) {
        var k :| 0 <= k < |users[1..]| && users[1..][k].github == id;
        assert users[k + 1].github == id;
      }
      if Lists(users, id) && id != users[0].github {
        var k :| 0 <= k < |users| && users[k].github == id;
        assert users[1..][k - 1].github == id;
      }
    }
  }

  /** One whole import request: what GitHub lists is fetched and then previewed or applied. */
  method Import(store: FollowGraph.Store, server: Server, first: string, user: Uuid, enabled: bool, preview: bool)
    returns (summary: Option<FollowGraph.Summary>)
    modifies store
    ensures !enabled ==> summary == Some(FollowGraph.Summary(0, 0, 0, 0, 0, [])) && store.Rows() == old(store.Rows())
    ensures preview || summary.None? ==> store.Rows() == old(store.Rows())
    ensures enabled && summary.None? ==>
      Crawled(server, first, 0, [], MAX_IMPORT).None? || (!preview && user !in old(store.graph).users)
    ensures enabled && summary.Some? ==>
      var ids := Crawled(server, first, 0, [], MAX_IMPORT);
      && ids.Some? && |ids.value| <= 5000 && Counted(summary.value, old(store.graph), user, ids.value)
    ensures enabled && summary.Some? && user in old(store.graph).users ==>
      store.graph == if preview then old(store.graph)
                     else FollowGraph.Imported(old(store.graph), user, Crawled(server, first, 0, [], MAX_IMPORT).value)
  {
    if !enabled {
      return Some(FollowGraph.Summary(0, 0, 0, 0, 0, []));
    }
    var ids := Fetch(server, first, MAX_IMPORT);
    if ids.None? {
      return None;
    }
    CrawlIsDistinct(server, first, 0, [], MAX_IMPORT);
    FollowGraph.PreviewIsHonest(store.graph, user, ids.value);
    var changes := store.ImportFollows(user, ids.value, preview);
    if changes.None? {
      return None;
    }
    var s := FollowGraph.Summarize(ids.value, changes.value);
    assert changes.value == FollowGraph.Changes(old(store.graph), user, ids.value);
    ChangesCount(s, old(store.graph), user, ids.value);
    return Some(s);
  }

  /** A summary that counts the changes of each kind. */
  ghost predicate Tallies(s: FollowGraph.Summary, changes: seq<FollowGraph.Change>) {
    && s.added == FollowGraph.Tally(changes, FollowGraph.Added)
    && s.alreadyFollowing == FollowGraph.Tally(changes, FollowGraph.AlreadyFollowing)
    && s.skippedUnfollowed == FollowGraph.Tally(changes, FollowGraph.SkippedUnfollowed)
    && s.skippedBlocked == FollowGraph.Tally(changes, FollowGraph.SkippedBlocked)
    && s.count == |changes| == s.added + s.alreadyFollowing + s.skippedUnfollowed + s.skippedBlocked
  }

  ghost predicate IsNew(g: Graph, user: Uuid, target: GitHubId) {
    !FollowGraph.BlockStands(g, user, target) && (user, target) !in g.relationships
  }

  ghost predicate Stands(g: Graph, user: Uuid, target: GitHubId, state: RelationshipState) {
    !FollowGraph.BlockStands(g, user, target) && FollowGraph.RowIs(g, user, target, state)
  }

  /**
   * What the summary says about the rows before the import: how many listed accounts are blocked in either
   * direction, and of the others how many are followed, have been unfollowed and are new; the sample is of new ones.
   */
  ghost predicate Counted(s: FollowGraph.Summary, g: Graph, user: Uuid, ids: seq<Identity>) {
    && s.count == |ids|
    && s.skippedBlocked == |set k: nat | k < |ids| && FollowGraph.BlockStands(g, user, ids[k].github)|
    && s.alreadyFollowing == |set k: nat | k < |ids| && Stands(g, user, ids[k].github, Active)|
    && s.skippedUnfollowed == |set k: nat | k < |ids| && Stands(g, user, ids[k].github, Unfollowed)|
    && s.added == |set k: nat | k < |ids| && IsNew(g, user, ids[k].github)|
    && |s.sample| == (if s.added < 5 then s.added else 5)
    && forall x :: x in s.sample ==> exists k :: 0 <= k < |ids| && ids[k] == x && IsNew(g, user, ids[k].github)
  }

  lemma ReportedAt(g: Graph, user: Uuid, ids: seq<Identity>, k: nat)
    requires FollowGraph.Distinct(ids) && k < |ids|
    ensures |FollowGraph.Changes(g, user, ids)| == |ids|
    ensures var c := FollowGraph.Changes(g, user, ids)[k];
      && c.identity == ids[k]
      && (c.action == FollowGraph.SkippedBlocked <==> FollowGraph.BlockStands(g, user, ids[k].github))
      && (c.action == FollowGraph.SkippedUnfollowed <==> Stands(g, user, ids[k].github, Unfollowed))
      && (c.action == FollowGraph.AlreadyFollowing <==> Stands(g, user, ids[k].github, Active))
      && (c.action == FollowGraph.Added <==> IsNew(g, user, ids[k].github))
  {
    FollowGraph.ReportedExactly(g, user, ids, k);
    hide FollowGraph.Changes, FollowGraph.BlockStands;
  }

  lemma ChangesCount(s: FollowGraph.Summary, g: Graph, user: Uuid, ids: seq<Identity>)
    requires FollowGraph.Distinct(ids) && Tallies(s, FollowGraph.Changes(g, user, ids))
    requires s.sample <= FollowGraph.AddedOnes(FollowGraph.Changes(g, user, ids)) && |s.sample| == if s.added < 5 then s.added else 5
    ensures Counted(s, g, user, ids)
  {
    var changes := FollowGraph.Changes(g, user, ids);
    FollowGraph.ChangesShape(g, user, ids);
    forall k: nat | k < |ids|
      ensures changes[k].identity == ids[k]
      ensures changes[k].action == FollowGraph.SkippedBlocked <==> FollowGraph.BlockStands(g, user, ids[k].github)
      ensures changes[k].action == FollowGraph.SkippedUnfollowed <==> Stands(g, user, ids[k].github, Unfollowed)
      ensures changes[k].action == FollowGraph.AlreadyFollowing <==> Stands(g, user, ids[k].github, Active)
      ensures changes[k].action == FollowGraph.Added <==> IsNew(g, user, ids[k].github)
    {
      ReportedAt(g, user, ids, k);
    }
    hide FollowGraph.Changes, FollowGraph.BlockStands, FollowGraph.RowIs, FollowGraph.Tally, FollowGraph.AddedOnes, Stands, IsNew;
    FollowGraph.TallyCounts(changes, FollowGraph.SkippedBlocked);
    FollowGraph.TallyCounts(changes, FollowGraph.SkippedUnfollowed);
    FollowGraph.TallyCounts(changes, FollowGraph.AlreadyFollowing);
    FollowGraph.TallyCounts(changes, FollowGraph.Added);
    assert FollowGraph.Having(changes, FollowGraph.SkippedBlocked) == set k: nat | k < |ids| && FollowGraph.BlockStands(g, user, ids[k].github);
    assert FollowGraph.Having(changes, FollowGraph.SkippedUnfollowed) == set k: nat | k < |ids| && Stands(g, user, ids[k].github, Unfollowed);
    assert FollowGraph.Having(changes, FollowGraph.AlreadyFollowing) == set k: nat | k < |ids| && Stands(g, user, ids[k].github, Active);
    assert FollowGraph.Having(changes, FollowGraph.Added) == set k: nat | k < |ids| && IsNew(g, user, ids[k].github);
    forall x | x in s.sample
      ensures exists k :: 0 <= k < |ids| && ids[k] == x && IsNew(g, user, ids[k].github)
    {
      FollowGraph.AddedOneIs(changes, x);
    }
  }
}
