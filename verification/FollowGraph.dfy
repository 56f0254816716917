/** Changes of the follow graph: follow, unfollow, block, and the import of whom a user follows on GitHub. */
module FollowGraph {
  import opened Options
  import opened ObjectKeys
  import opened SocialGraph

  datatype Identity = Identity(github: GitHubId, login: string)

  datatype Action = Added | AlreadyFollowing | SkippedUnfollowed | SkippedBlocked

  datatype Change = Change(identity: Identity, action: Action)

  datatype Tables = Tables(graph: Graph, identities: map<GitHubId, Identity>, onboarded: set<Uuid>)

  // -------------------------------------------------------- single statements

  /** Creates a follow or revives it. A native follow stays native. */
  function Followed(g: Graph, follower: Uuid, followee: GitHubId, how: Provenance): Graph {
    var key := (follower, followee);
    var provenance := if how.StoriesNative? || key !in g.relationships then how else g.relationships[key].provenance;
    g.(relationships := g.relationships[key := Relationship(Active, provenance)])
  }

  /** Leaves a tombstone where there was a follow. */
  function Dropped(g: Graph, follower: Uuid, followee: GitHubId): Graph {
    var key := (follower, followee);
    if Follows(g, follower, followee)
    then g.(relationships := g.relationships[key := g.relationships[key].(state := Unfollowed)])
    else g
  }

  predicate Names(g: Graph, u: Uuid, github: GitHubId) {
    u in g.users && g.users[u].github == github
  }

  /** Whether the follow `key` runs between the user and the account, in either direction. */
  predicate Between(g: Graph, user: Uuid, target: GitHubId, key: (Uuid, GitHubId)) {
    key == (user, target) || (Names(g, user, key.1) && Names(g, key.0, target))
  }

  /** A block, which turns the follows of both directions into tombstones. */
  function Blocked(g: Graph, user: Uuid, target: GitHubId): Graph {
    g.(blocks := g.blocks + {(user, target)},
       relationships := map key | key in g.relationships ::
         if g.relationships[key].state.Active? && Between(g, user, target, key)
         then g.relationships[key].(state := Unfollowed) else g.relationships[key])
  }

  function Unblocked(g: Graph, user: Uuid, target: GitHubId): Graph {
    g.(blocks := g.blocks - {(user, target)})
  }

  function HideSet(g: Graph, author: Uuid, target: GitHubId, on: bool): Graph {
    g.(hides := if on then g.hides + {(author, target)} else g.hides - {(author, target)})
  }

  function MuteSet(g: Graph, user: Uuid, target: GitHubId, on: bool): Graph {
    g.(mutes := if on then g.mutes + {(user, target)} else g.mutes - {(user, target)})
  }

  function ListCreated(g: Graph, id: Uuid, owner: Uuid, members: set<GitHubId>): Graph {
    if id in g.lists then g else g.(lists := g.lists[id := AudienceList(owner, false, members)])
  }

  /** Only its owner edits a list, and only while it is not deleted. */
  predicate Editable(g: Graph, id: Uuid, user: Uuid) {
    id in g.lists && g.lists[id].owner == user && !g.lists[id].deleted
  }

  function ListEdited(g: Graph, id: Uuid, user: Uuid, members: set<GitHubId>): Graph {
    if Editable(g, id, user) then g.(lists := g.lists[id := g.lists[id].(members := members)]) else g
  }

  function ListDropped(g: Graph, id: Uuid, user: Uuid): Graph {
    if id in g.lists && g.lists[id].owner == user then g.(lists := g.lists[id := g.lists[id].(deleted := true)]) else g
  }

  function SuspensionSet(g: Graph, user: Uuid, on: bool): Graph {
    if user in g.users then g.(users := g.users[user := g.users[user].(suspended := on)]) else g
  }

  /** Whether either of the two has blocked the other. */
  predicate BlockedEitherWay(g: Graph, user: Uuid, target: GitHubId) {
    || (user, target) in g.blocks
    || exists b :: b in g.blocks && Names(g, b.0, target) && Names(g, user, b.1)
  }

  // ------------------------------------------------------------------ imports

  /** What an import does about one account. */
  function Classified(g: Graph, user: Uuid, target: GitHubId): Action {
    if BlockedEitherWay(g, user, target) then SkippedBlocked
    else if (user, target) !in g.relationships then Added
    else if g.relationships[(user, target)].state.Unfollowed? then SkippedUnfollowed
    else AlreadyFollowing
  }

  function ImportedOne(g: Graph, user: Uuid, target: GitHubId): Graph {
    if Classified(g, user, target).Added? then Followed(g, user, target, GitHubImport) else g
  }

  function Imported(g: Graph, user: Uuid, ids: seq<Identity>): Graph
    decreases |ids|
  {
    if ids == [] then g else Imported(ImportedOne(g, user, ids[0].github), user, ids[1..])
  }

  /** What an import reports, account by account. */
  function Changes(g: Graph, user: Uuid, ids: seq<Identity>): seq<Change>
    decreases |ids|
  {
    if ids == [] then []
    else [Change(ids[0], Classified(g, user, ids[0].github))] + Changes(ImportedOne(g, user, ids[0].github), user, ids[1..])
  }

  /** What a preview reports: every account is judged by the graph as it is. */
  function Previewed(g: Graph, user: Uuid, ids: seq<Identity>): seq<Change> {
    seq(|ids|, k requires 0 <= k < |ids| => Change(ids[k], Classified(g, user, ids[k].github)))
  }

  function Known(identities: map<GitHubId, Identity>, ids: seq<Identity>): map<GitHubId, Identity>
    decreases |ids|
  {
    if ids == [] then identities else Known(identities[ids[0].github := ids[0]], ids[1..])
  }

  function KnownOf(known: set<GitHubId>, members: seq<GitHubId>): set<GitHubId> {
    set m | m in members && m in known
  }

  class Store {
    var graph: Graph
    var identities: map<GitHubId, Identity>
    var onboarded: set<Uuid>

    constructor (g: Graph)
      ensures graph == g && identities == map[] && onboarded == {}
    {
      graph, identities, onboarded := g, map[], {};
    }

    function Rows(): Tables
      reads this
    {
      Tables(graph, identities, onboarded)
    }

    method Follow(follower: Uuid, followee: GitHubId, how: Provenance) returns (ok: bool)
      modifies this`graph
      ensures ok <==> follower in old(graph).users && followee in identities
      ensures graph == if ok then Followed(old(graph), follower, followee, how) else old(graph)
    {
      if follower !in graph.users || followee !in identities {
        return false;
      }
      var key := (follower, followee);
      if key !in graph.relationships {
        graph := graph.(relationships := graph.relationships[key := Relationship(Active, how)]);
      } else {
        var provenance := if how.StoriesNative? then how else graph.relationships[key].provenance;
        graph := graph.(relationships := graph.relationships[key := Relationship(Active, provenance)]);
      }
      return true;
    }

    method Unfollow(follower: Uuid, followee: GitHubId)
      modifies this`graph
      ensures graph == Dropped(old(graph), follower, followee)
    {
      var key := (follower, followee);
      if key in graph.relationships && graph.relationships[key].state.Active? {
        graph := graph.(relationships := graph.relationships[key := graph.relationships[key].(state := Unfollowed)]);
      }
    }

    /** Fails without a trace when the user or the account is unknown. */
    method SetBlock(user: Uuid, target: GitHubId, on: bool) returns (ok: bool)
      modifies this`graph
      ensures ok <==> !on || (user in old(graph).users && target in identities)
      ensures graph ==
        if !ok then old(graph) else if on then Blocked(old(graph), user, target) else Unblocked(old(graph), user, target)
      ensures ok ==> ((user, target) in graph.blocks <==> on)
      ensures forall b :: b != (user, target) ==> (b in graph.blocks <==> b in old(graph).blocks)
    {
      if !on {
        graph := graph.(blocks := graph.blocks - {(user, target)});
        return true;
      }
      if user !in graph.users || target !in identities {
        return false;
      }
      graph := graph.(blocks := graph.blocks + {(user, target)});
      graph := graph.(relationships := map key | key in graph.relationships ::
        if graph.relationships[key].state.Active? && Between(graph, user, target, key)
        then graph.relationships[key].(state := Unfollowed) else graph.relationships[key]);
      return true;
    }

    /** Hide rules and mutes are set and lifted alike; setting one for an unknown user or account fails without a trace. */
    method SetHide(author: Uuid, target: GitHubId, on: bool) returns (ok: bool)
      modifies this`graph
      ensures ok <==> !on || (author in old(graph).users && target in identities)
      ensures graph == if ok then HideSet(old(graph), author, target, on) else old(graph)
      ensures ok ==> ((author, target) in graph.hides <==> on)
      ensures forall h :: h != (author, target) ==> (h in graph.hides <==> h in old(graph).hides)
    {
      if !on {
        graph := graph.(hides := graph.hides - {(author, target)});
        return true;
      }
      if author !in graph.users || target !in identities {
        return false;
      }
      graph := graph.(hides := graph.hides + {(author, target)});
      return true;
    }

    method SetMute(user: Uuid, target: GitHubId, on: bool) returns (ok: bool)
      modifies this`graph
      ensures ok <==> !on || (user in old(graph).users && target in identities)
      ensures graph == if ok then MuteSet(old(graph), user, target, on) else old(graph)
      ensures ok ==> ((user, target) in graph.mutes <==> on)
      ensures forall m :: m != (user, target) ==> (m in graph.mutes <==> m in old(graph).mutes)
    {
      if !on {
        graph := graph.(mutes := graph.mutes - {(user, target)});
        return true;
      }
      if user !in graph.users || target !in identities {
        return false;
      }
      graph := graph.(mutes := graph.mutes + {(user, target)});
      return true;
    }

    method SuspendUser(user: Uuid, on: bool)
      modifies this`graph
      ensures graph == SuspensionSet(old(graph), user, on)
    {
      if user in graph.users {
        graph := graph.(users := graph.users[user := graph.users[user].(suspended := on)]);
      }
    }

    /** Accounts that are not known are skipped. */
    method ReplaceMembers(id: Uuid, members: seq<GitHubId>)
      requires id in graph.lists
      modifies this`graph
      ensures graph == old(graph).(lists := old(graph).lists[id := old(graph).lists[id].(members := KnownOf(identities.Keys, members))])
      ensures forall m :: m in graph.lists[id].members <==> m in identities && m in members
    {
      var found: set<GitHubId> := {};
      for i := 0 to |members|
        invariant found == KnownOf(identities.Keys, members[..i])
      {
        assert members[..i + 1] == members[..i] + [members[i]];
        if members[i] in identities {
          found := found + {members[i]};
        }
      }
      assert members[..|members|] == members;
      graph := graph.(lists := graph.lists[id := graph.lists[id].(members := found)]);
    }

    method CreateAudienceList(id: Uuid, owner: Uuid, members: seq<GitHubId>)
      requires id !in graph.lists
      modifies this`graph
      ensures graph == ListCreated(old(graph), id, owner, KnownOf(identities.Keys, members))
      ensures id in graph.lists && forall m :: m in graph.lists[id].members <==> m in identities && m in members
    {
      graph := graph.(lists := graph.lists[id := AudienceList(owner, false, {})]);
      ReplaceMembers(id, members);
    }

    /** False is ErrNotFound: no such list, somebody else's, or a deleted one. */
    method UpdateAudienceList(user: Uuid, id: Uuid, members: seq<GitHubId>) returns (ok: bool)
      modifies this`graph
      ensures ok <==> id in old(graph).lists && old(graph).lists[id].owner == user && !old(graph).lists[id].deleted
      ensures graph == if ok then ListEdited(old(graph), id, user, KnownOf(identities.Keys, members)) else old(graph)
      ensures ok ==> id in graph.lists && forall m :: m in graph.lists[id].members <==> m in identities && m in members
    {
      if id !in graph.lists || graph.lists[id].deleted || graph.lists[id].owner != user {
        return false;
      }
      ReplaceMembers(id, members);
      return true;
    }

    method DeleteAudienceList(user: Uuid, id: Uuid)
      modifies this`graph
      ensures graph == ListDropped(old(graph), id, user)
    {
      if id in graph.lists && graph.lists[id].owner == user {
        graph := graph.(lists := graph.lists[id := graph.lists[id].(deleted := true)]);
      }
    }

    /**
     * One transaction: a preview, and an import whose user is gone, is rolled back. What it reports is the same
     * in either case unless an account occurs twice in `ids`.
     */
    method ImportFollows(user: Uuid, ids: seq<Identity>, preview: bool) returns (changes: Option<seq<Change>>)
      modifies this
      ensures preview ==> Rows() == old(Rows()) && changes == Some(Previewed(old(graph), user, ids))
      ensures !preview && user in old(graph).users ==>
        && Rows() == Tables(Imported(old(graph), user, ids), Known(old(identities), ids), old(onboarded) + {user})
        && changes == Some(Changes(old(graph), user, ids))
      ensures !preview && user !in old(graph).users ==>
        && graph == old(graph) && onboarded == old(onboarded)
        && (changes.None? <==> exists k :: 0 <= k < |ids| && Classified(old(graph), user, ids[k].github).Added?)
        && (changes.Some? ==> changes == Some(Previewed(old(graph), user, ids)))
      ensures changes.Some? ==> |changes.value| == |ids|
      ensures changes.None? ==> !preview && user !in old(graph).users && Rows() == old(Rows())
    {
      var before, known := graph, identities;
      var done: seq<Change> := [];
      for i := 0 to |ids|
        invariant onboarded == old(onboarded) && |done| == i
        invariant graph.users == before.users
        invariant Known(identities, ids[i..]) == Known(known, ids)
        invariant user !in before.users ==> graph == before
        invariant preview || user !in before.users ==> graph == before && done == Previewed(before, user, ids)[..i]
        invariant !preview && user !in before.users ==> forall k :: 0 <= k < i ==> !Classified(before, user, ids[k].github).Added?
        invariant !preview && user in before.users ==>
          Imported(graph, user, ids[i..]) == Imported(before, user, ids) && done + Changes(graph, user, ids[i..]) == Changes(before, user, ids)
      {
        assert ids[i..][0] == ids[i] && ids[i..][1..] == ids[i + 1..];
        identities := identities[ids[i].github := ids[i]];
        var action := Classified(graph, user, ids[i].github);
        if action.Added? && !preview {
          var ok := Follow(user, ids[i].github, GitHubImport);
          if !ok {
            graph, identities := before, known;
            return None;
          }
        }
        done := done + [Change(ids[i], action)];
      }
      if preview {
        graph, identities := before, known;
      } else if user in graph.users {
        onboarded := onboarded + {user};
      }
      assert ids[|ids|..] == [] && done + [] == done;
      assert preview || user !in before.users ==> done == Previewed(before, user, ids);
      return Some(done);
    }
  }

  // ----------------------------------------------------- preview and re-import

  ghost predicate Distinct(ids: seq<Identity>) {
    forall i, j :: 0 <= i < j < |ids| ==> ids[i].github != ids[j].github
  }

  /** No account that the import would add occurs twice. */
  ghost predicate AddsOnce(g: Graph, user: Uuid, ids: seq<Identity>) {
    forall i, j :: 0 <= i < j < |ids| && ids[i].github == ids[j].github ==> !Classified(g, user, ids[i].github).Added?
  }

  /** Importing one account changes how that account is judged and no other. */
  lemma OthersJudgedAlike(g: Graph, user: Uuid, one: GitHubId, other: GitHubId)
    ensures other != one ==> Classified(ImportedOne(g, user, one), user, other) == Classified(g, user, other)
    ensures Classified(ImportedOne(g, user, one), user, one) ==
      if Classified(g, user, one).Added? then AlreadyFollowing else Classified(g, user, one)
  {
    var g' := ImportedOne(g, user, one);
    assert g'.users == g.users && g'.blocks == g.blocks;
    assert BlockedEitherWay(g', user, other) <==> BlockedEitherWay(g, user, other);
    assert BlockedEitherWay(g', user, one) <==> BlockedEitherWay(g, user, one);
    hide BlockedEitherWay;
  }

  lemma {:induction false} ChangesShape(g: Graph, user: Uuid, ids: seq<Identity>)
    ensures |Changes(g, user, ids)| == |ids|
    ensures forall k :: 0 <= k < |ids| ==> Changes(g, user, ids)[k].identity == ids[k]
    decreases |ids|
  {
    if ids != [] {
      hide Classified, ImportedOne;
      ChangesShape(ImportedOne(g, user, ids[0].github), user, ids[1..]);
    }
  }

  /** The first mention of an account is judged by the graph before; one that was added is being followed at the next. */
  lemma {:induction false} ChangeAt(g: Graph, user: Uuid, ids: seq<Identity>, k: nat)
    requires k < |ids|
    ensures |Changes(g, user, ids)| == |ids|
    ensures Changes(g, user, ids)[k].action ==
      if Classified(g, user, ids[k].github).Added? && exists i :: 0 <= i < k && ids[i].github == ids[k].github
      then AlreadyFollowing else Classified(g, user, ids[k].github)
    decreases |ids|
  {
    ChangesShape(g, user, ids);
    if k > 0 {
      var g' := ImportedOne(g, user, ids[0].github);
      OthersJudgedAlike(g, user, ids[0].github, ids[k].github);
      hide Classified, ImportedOne;
      ChangeAt(g', user, ids[1..], k - 1);
      assert Changes(g, user, ids)[k] == Changes(g', user, ids[1..])[k - 1];
      if exists i :: 0 <= i < k - 1 && ids[1..][i].github == ids[k].github {
        var i :| 0 <= i < k - 1 && ids[1..][i].github == ids[k].github;
        assert ids[i + 1].github == ids[k].github;
      }
      if exists i :: 0 < i < k && ids[i].github == ids[k].github {
        var i :| 0 < i < k && ids[i].github == ids[k].github;
        assert ids[1..][i - 1].github == ids[k].github;
      }
    }
  }

  /** A preview reports exactly what the import then does, unless an account it would add is listed twice. */
  lemma PreviewIsHonestExactly(g: Graph, user: Uuid, ids: seq<Identity>)
    ensures Previewed(g, user, ids) == Changes(g, user, ids) <==> AddsOnce(g, user, ids)
  {
    var p, c := Previewed(g, user, ids), Changes(g, user, ids);
    ChangesShape(g, user, ids);
    hide Classified, Changes;
    if AddsOnce(g, user, ids) {
      forall k | 0 <= k < |ids|
        ensures p[k] == c[k]
      {
        ChangeAt(g, user, ids, k);
      }
    }
    if p == c {
      forall i, j | 0 <= i < j < |ids| && ids[i].github == ids[j].github
        ensures !Classified(g, user, ids[i].github).Added?
      {
        ChangeAt(g, user, ids, j);
        assert p[j] == c[j];
      }
    }
  }

  /** On the deduplicated list that GitHub's client delivers, a preview is always honest. */
  lemma PreviewIsHonest(g: Graph, user: Uuid, ids: seq<Identity>)
    requires Distinct(ids)
    ensures Previewed(g, user, ids) == Changes(g, user, ids)
  {
    PreviewIsHonestExactly(g, user, ids);
  }

  /** A block between a user and an account: the user's own, or one by the account's user on the user's account. */
  ghost predicate BlockStands(g: Graph, user: Uuid, target: GitHubId) {
    || (user, target) in g.blocks
    || exists other: Uuid :: other in g.users && user in g.users && g.users[other].github == target && (other, g.users[user].github) in g.blocks
  }

  ghost predicate RowIs(g: Graph, user: Uuid, target: GitHubId, state: RelationshipState) {
    (user, target) in g.relationships && g.relationships[(user, target)].state == state
  }

  /** What is to be reported about an account, in terms of the rows there are. */
  ghost predicate ReportIs(g: Graph, user: Uuid, target: GitHubId, action: Action) {
    && (action == SkippedBlocked <==> BlockStands(g, user, target))
    && (action == SkippedUnfollowed <==> !BlockStands(g, user, target) && RowIs(g, user, target, Unfollowed))
    && (action == AlreadyFollowing <==> !BlockStands(g, user, target) && RowIs(g, user, target, Active))
    && (action == Added <==> !BlockStands(g, user, target) && (user, target) !in g.relationships)
  }

  lemma ClassifiedIs(g: Graph, user: Uuid, target: GitHubId)
    ensures ReportIs(g, user, target, Classified(g, user, target))
  {
    if (user, target) !in g.blocks && BlockedEitherWay(g, user, target) {
      var b :| b in g.blocks && Names(g, b.0, target) && Names(g, user, b.1);
      assert (b.0, g.users[user].github) in g.blocks;
    }
    if (user, target) !in g.blocks && BlockStands(g, user, target) {
      var other: Uuid :| other in g.users && user in g.users && g.users[other].github == target && (other, g.users[user].github) in g.blocks;
      var b := (other, g.users[user].github);
      assert b in g.blocks && Names(g, b.0, target) && Names(g, user, b.1);
    }
  }

  /**
   * What preview and import report of an account at its first mention: skipped for a block exactly if one stands in
   * either direction; else skipped as unfollowed exactly if there is a tombstone, already followed exactly if there
   * is an active row, and added exactly if there is none.
   */
  lemma ReportedExactly(g: Graph, user: Uuid, ids: seq<Identity>, k: nat)
    requires k < |ids| && forall i :: 0 <= i < k ==> ids[i].github != ids[k].github
    ensures |Changes(g, user, ids)| == |Previewed(g, user, ids)| == |ids|
    ensures Changes(g, user, ids)[k].identity == Previewed(g, user, ids)[k].identity == ids[k]
    ensures ReportIs(g, user, ids[k].github, Changes(g, user, ids)[k].action)
    ensures ReportIs(g, user, ids[k].github, Previewed(g, user, ids)[k].action)
  {
    ChangesShape(g, user, ids);
    ChangeAt(g, user, ids, k);
    ClassifiedIs(g, user, ids[k].github);
    hide Classified, ReportIs;
  }

  /** What an import leaves behind, follow by follow. */
  lemma {:induction false} ImportedRow(g: Graph, user: Uuid, ids: seq<Identity>, key: (Uuid, GitHubId))
    ensures var g' := Imported(g, user, ids);
      && g'.users == g.users && g'.blocks == g.blocks
      && (key in g.relationships ==> key in g'.relationships && g'.relationships[key] == g.relationships[key])
      && (key !in g.relationships ==>
        if key.0 == user && !BlockedEitherWay(g, user, key.1) && exists i :: 0 <= i < |ids| && ids[i].github == key.1
        then key in g'.relationships && g'.relationships[key] == Relationship(Active, GitHubImport)
        else key !in g'.relationships)
    decreases |ids|
  {
    if ids != [] {
      var g1 := ImportedOne(g, user, ids[0].github);
      assert g1.users == g.users && g1.blocks == g.blocks;
      assert BlockedEitherWay(g1, user, key.1) <==> BlockedEitherWay(g, user, key.1);
      ImportedRow(g1, user, ids[1..], key);
      hide BlockedEitherWay;
      if exists i :: 0 <= i < |ids[1..]| && ids[1..][i].github == key.1 {
        var i :| 0 <= i < |ids[1..]| && ids[1..][i].github == key.1;
        assert ids[i + 1].github == key.1;
      }
      if exists i :: 0 < i < |ids| && ids[i].github == key.1 {
        var i :| 0 < i < |ids| && ids[i].github == key.1;
        assert ids[1..][i - 1].github == key.1;
      }
    }
  }

  /** Follows, blocks and imports leave hide rules, mutes, lists and the users' accounts alone. */
  lemma {:induction false} ImportLeaves(g: Graph, user: Uuid, ids: seq<Identity>)
    ensures var g' := Imported(g, user, ids);
      g'.hides == g.hides && g'.mutes == g.mutes && g'.lists == g.lists && g'.users == g.users
    decreases |ids|
  {
    if ids != [] {
      ImportLeaves(ImportedOne(g, user, ids[0].github), user, ids[1..]);
      hide BlockedEitherWay;
    }
  }

  /** Importing again changes nothing: all it added is being followed, all it skipped is skipped again. */
  lemma ReimportChangesNothing(g: Graph, user: Uuid, ids: seq<Identity>)
    ensures Imported(Imported(g, user, ids), user, ids) == Imported(g, user, ids)
  {
    var g1 := Imported(g, user, ids);
    NothingAdded(g, user, ids);
    ImportOfNothing(g1, user, ids);
  }

  lemma NothingAdded(g: Graph, user: Uuid, ids: seq<Identity>)
    ensures forall k :: 0 <= k < |ids| ==> !Classified(Imported(g, user, ids), user, ids[k].github).Added?
  {
    forall k | 0 <= k < |ids|
      ensures !Classified(Imported(g, user, ids), user, ids[k].github).Added?
    {
      ImportedRow(g, user, ids, (user, ids[k].github));
    }
  }

  lemma {:induction false} ImportOfNothing(g: Graph, user: Uuid, ids: seq<Identity>)
    requires forall k :: 0 <= k < |ids| ==> !Classified(g, user, ids[k].github).Added?
    ensures Imported(g, user, ids) == g
    decreases |ids|
  {
    if ids != [] {
      assert !Classified(g, user, ids[0].github).Added?;
      hide Classified;
      ImportOfNothing(g, user, ids[1..]);
    }
  }

  // --------------------------------------------------------------- over runs

  datatype Op =
    | FollowOp(user: Uuid, target: GitHubId)
    | UnfollowOp(user: Uuid, target: GitHubId)
    | BlockOp(user: Uuid, target: GitHubId, on: bool)
    | ImportOp(user: Uuid, ids: seq<Identity>)
    | HideOp(user: Uuid, target: GitHubId, on: bool)
    | MuteOp(user: Uuid, target: GitHubId, on: bool)
    | CreateListOp(list: Uuid, user: Uuid, members: set<GitHubId>)
    | EditListOp(list: Uuid, user: Uuid, members: set<GitHubId>)
    | DropListOp(list: Uuid, user: Uuid)
    | SuspendOp(user: Uuid, on: bool)

  function Applied(g: Graph, op: Op): Graph {
    match op
    case FollowOp(user, target) => Followed(g, user, target, StoriesNative)
    case UnfollowOp(user, target) => Dropped(g, user, target)
    case BlockOp(user, target, on) => if on then Blocked(g, user, target) else Unblocked(g, user, target)
    case ImportOp(user, ids) => Imported(g, user, ids)
    case HideOp(user, target, on) => HideSet(g, user, target, on)
    case MuteOp(user, target, on) => MuteSet(g, user, target, on)
    case CreateListOp(list, user, members) => ListCreated(g, list, user, members)
    case EditListOp(list, user, members) => ListEdited(g, list, user, members)
    case DropListOp(list, user) => ListDropped(g, list, user)
    case SuspendOp(user, on) => SuspensionSet(g, user, on)
  }

  /** The users and their GitHub accounts, which nothing here changes. */
  ghost function Accounts(g: Graph): map<Uuid, GitHubId> {
    map u | u in g.users :: g.users[u].github
  }

  lemma ImportLeavesRules(g: Graph, op: Op)
    ensures op.ImportOp? ==>
      var g' := Applied(g, op);
      g'.hides == g.hides && g'.mutes == g.mutes && g'.lists == g.lists && g'.users == g.users
  {
    if op.ImportOp? {
      ImportLeaves(g, op.user, op.ids);
    }
  }

  lemma AccountsTell(g: Graph, g': Graph)
    requires Accounts(g') == Accounts(g)
    ensures forall u :: u in g'.users <==> u in g.users
    ensures forall u :: u in g.users ==> g'.users[u].github == g.users[u].github
  {
    forall u
      ensures u in g'.users <==> u in g.users
    {
      assert u in Accounts(g') <==> u in Accounts(g);
    }
    forall u | u in g.users
      ensures g'.users[u].github == g.users[u].github
    {
      assert Accounts(g')[u] == Accounts(g)[u];
    }
  }

  function Ran(g: Graph, ops: seq<Op>): Graph
    decreases |ops|
  {
    if ops == [] then g else Ran(Applied(g, ops[0]), ops[1..])
  }

  ghost predicate NeverFollowed(ops: seq<Op>, key: (Uuid, GitHubId)) {
    forall k :: 0 <= k < |ops| && ops[k].FollowOp? ==> (ops[k].user, ops[k].target) != key
  }

  lemma RowIsKept(g: Graph, op: Op, key: (Uuid, GitHubId))
    requires key in g.relationships
    ensures var g' := Applied(g, op);
      && key in g'.relationships
      && (g.relationships[key].provenance.StoriesNative? ==> g'.relationships[key].provenance.StoriesNative?)
      && (g.relationships[key].state.Unfollowed? && !(op.FollowOp? && (op.user, op.target) == key) ==> g'.relationships[key] == g.relationships[key])
  {
    if op.ImportOp? {
      ImportedRow(g, op.user, op.ids, key);
    }
  }

  /** Only the user's own follow revives a follow they ended: no import, by whomever and of whatever, does. */
  lemma {:induction false} TombstonesHold(g: Graph, ops: seq<Op>, key: (Uuid, GitHubId))
    requires key in g.relationships && g.relationships[key].state.Unfollowed? && NeverFollowed(ops, key)
    ensures key in Ran(g, ops).relationships && Ran(g, ops).relationships[key] == g.relationships[key]
    decreases |ops|
  {
    if ops != [] {
      RowIsKept(g, ops[0], key);
      hide Applied;
      TombstonesHold(Applied(g, ops[0]), ops[1..], key);
    }
  }

  /**
   * After users have ended a follow, and until they follow again, every import and preview that lists the account
   * reports it as skipped, for the tombstone or for a block, whatever else has happened.
   */
  lemma TombstonesAreReported(g: Graph, ops: seq<Op>, user: Uuid, target: GitHubId, ids: seq<Identity>, k: nat)
    requires RowIs(g, user, target, Active) && NeverFollowed(ops, (user, target))
    requires k < |ids| && ids[k].github == target && forall i :: 0 <= i < k ==> ids[i].github != target
    ensures var now := Ran(Applied(g, UnfollowOp(user, target)), ops);
      && |Changes(now, user, ids)| == |Previewed(now, user, ids)| == |ids|
      && Changes(now, user, ids)[k].action == Previewed(now, user, ids)[k].action
      && Changes(now, user, ids)[k].action == if BlockStands(now, user, target) then SkippedBlocked else SkippedUnfollowed
  {
    var dropped := Applied(g, UnfollowOp(user, target));
    TombstonesHold(dropped, ops, (user, target));
    ReportedExactly(Ran(dropped, ops), user, ids, k);
    hide Ran, Applied, Changes, Previewed, BlockStands;
  }

  /** A follow made on Stories is never taken for an import again. */
  lemma {:induction false} NativeStaysNative(g: Graph, ops: seq<Op>, key: (Uuid, GitHubId))
    requires key in g.relationships && g.relationships[key].provenance.StoriesNative?
    ensures key in Ran(g, ops).relationships && Ran(g, ops).relationships[key].provenance.StoriesNative?
    decreases |ops|
  {
    if ops != [] {
      RowIsKept(g, ops[0], key);
      hide Applied;
      NativeStaysNative(Applied(g, ops[0]), ops[1..], key);
    }
  }

  /** A block is in place and nothing is followed across it. */
  ghost predicate Severed(g: Graph, user: Uuid, target: GitHubId) {
    && (user, target) in g.blocks
    && forall key :: key in g.relationships && Between(g, user, target, key) ==> g.relationships[key].state.Unfollowed?
  }

  ghost predicate LeavesBlock(accounts: map<Uuid, GitHubId>, ops: seq<Op>, user: Uuid, target: GitHubId) {
    forall k :: 0 <= k < |ops| ==> Leaves(accounts, ops[k], user, target)
  }

  /** Neither lifts the block nor is an explicit follow across it. */
  predicate Leaves(accounts: map<Uuid, GitHubId>, op: Op, user: Uuid, target: GitHubId) {
    && !(op.BlockOp? && !op.on && op.user == user && op.target == target)
    && !(op.FollowOp? && ((op.user == user && op.target == target)
          || (user in accounts && accounts[user] == op.target && op.user in accounts && accounts[op.user] == target)))
  }

  /** A follow across a block is one an import skips, whichever of the two imports. */
  lemma AcrossIsBlocked(g: Graph, user: Uuid, target: GitHubId, key: (Uuid, GitHubId))
    requires (user, target) in g.blocks && Between(g, user, target, key)
    ensures BlockedEitherWay(g, key.0, key.1)
  {
    var b := (user, target);
    if key != b {
      assert b in g.blocks && Names(g, b.0, key.1) && Names(g, key.0, b.1);
    }
  }

  lemma ImportIsSevered(g: Graph, ids: seq<Identity>, importer: Uuid, user: Uuid, target: GitHubId)
    requires Severed(g, user, target)
    ensures Severed(Imported(g, importer, ids), user, target)
  {
    var g' := Imported(g, importer, ids);
    ImportedRow(g, importer, ids, (user, target));
    forall key | key in g'.relationships && Between(g', user, target, key)
      ensures g'.relationships[key].state.Unfollowed?
    {
      ImportedRow(g, importer, ids, key);
      AcrossIsBlocked(g, user, target, key);
    }
  }

  lemma StaysSevered(g: Graph, op: Op, user: Uuid, target: GitHubId)
    requires Severed(g, user, target) && Leaves(Accounts(g), op, user, target)
    ensures Severed(Applied(g, op), user, target) && Accounts(Applied(g, op)) == Accounts(g)
  {
    if op.ImportOp? {
      ImportIsSevered(g, op.ids, op.user, user, target);
      ImportedRow(g, op.user, op.ids, (user, target));
    }
  }

  lemma {:induction false} RunStaysSevered(g: Graph, ops: seq<Op>, user: Uuid, target: GitHubId)
    requires Severed(g, user, target) && LeavesBlock(Accounts(g), ops, user, target)
    ensures Severed(Ran(g, ops), user, target)
    decreases |ops|
  {
    if ops != [] {
      assert Leaves(Accounts(g), ops[0], user, target);
      StaysSevered(g, ops[0], user, target);
      hide Severed, Applied, Leaves;
      RunStaysSevered(Applied(g, ops[0]), ops[1..], user, target);
    }
  }

  /** A block ends the follows of both directions, and until it is lifted nothing but an explicit follow renews one. */
  lemma BlockSevers(g: Graph, user: Uuid, target: GitHubId, ops: seq<Op>)
    requires LeavesBlock(Accounts(g), ops, user, target)
    ensures Severed(Ran(Applied(g, BlockOp(user, target, true)), ops), user, target)
  {
    RunStaysSevered(Applied(g, BlockOp(user, target, true)), ops, user, target);
  }

  /** A follow makes an active native row, of whatever there was, and native it stays over every run. */
  lemma FollowIsNative(g: Graph, ops: seq<Op>, user: Uuid, target: GitHubId)
    ensures var g' := Applied(g, FollowOp(user, target)); RowIs(g', user, target, Active)
    ensures var g' := Ran(Applied(g, FollowOp(user, target)), ops);
      (user, target) in g'.relationships && g'.relationships[(user, target)].provenance == StoriesNative
  {
    NativeStaysNative(Applied(g, FollowOp(user, target)), ops, (user, target));
  }

  /**
   * What a block does to the follows: its own user's follow of the account and the follow of its user by the
   * account's user end, leaving tombstones; every other row is as it was.
   */
  lemma BlockEndsExactly(g: Graph, user: Uuid, target: GitHubId, key: (Uuid, GitHubId))
    ensures var g' := Applied(g, BlockOp(user, target, true));
      && (user, target) in g'.blocks && (key in g'.relationships <==> key in g.relationships)
      && (key in g.relationships ==>
           g'.relationships[key] ==
             if key == (user, target)
               || (user in g.users && key.1 == g.users[user].github && key.0 in g.users && g.users[key.0].github == target)
             then g.relationships[key].(state := Unfollowed) else g.relationships[key])
    ensures var g' := Applied(g, BlockOp(user, target, false));
      g'.relationships == g.relationships && (user, target) !in g'.blocks && g'.blocks + {(user, target)} == g.blocks + {(user, target)}
  {
  }

  // ---------------------------------------------------------- standing follows

  /** Ends the follow `key` if there is one: its own unfollow, or a block between the two. */
  predicate Ends(g: Graph, op: Op, key: (Uuid, GitHubId)) {
    || op == UnfollowOp(key.0, key.1)
    || (op.BlockOp? && op.on && Between(g, op.user, op.target, key))
  }

  /** Sets the follow `key` up: its own follow, or an import of an account that has no row and no block. */
  predicate Establishes(g: Graph, op: Op, key: (Uuid, GitHubId)) {
    || op == FollowOp(key.0, key.1)
    || (op.ImportOp? && op.user == key.0 && key !in g.relationships && !BlockedEitherWay(g, key.0, key.1)
        && exists i :: 0 <= i < |op.ids| && op.ids[i].github == key.1)
  }

  /** None of the operations from the k-th on ends the follow. */
  ghost predicate UnendedFrom(g: Graph, ops: seq<Op>, key: (Uuid, GitHubId), k: nat) {
    forall i :: k <= i < |ops| ==> !Ends(g, ops[i], key)
  }

  /** The k-th operation sets the follow up and none after it ends it. */
  ghost predicate EstablishedAt(g: Graph, ops: seq<Op>, key: (Uuid, GitHubId), k: nat) {
    k < |ops| && Establishes(Ran(g, ops[..k]), ops[k], key) && UnendedFrom(g, ops, key, k + 1)
  }

  ghost predicate Standing(g: Graph, ops: seq<Op>, key: (Uuid, GitHubId)) {
    (exists k :: EstablishedAt(g, ops, key, k)) || (Follows(g, key.0, key.1) && UnendedFrom(g, ops, key, 0))
  }

  lemma FollowSteps(g: Graph, op: Op, key: (Uuid, GitHubId))
    ensures var g' := Applied(g, op);
      && Accounts(g') == Accounts(g)
      && (Follows(g', key.0, key.1) <==> Establishes(g, op, key) || (Follows(g, key.0, key.1) && !Ends(g, op, key)))
  {
    if op.ImportOp? {
      ImportedRow(g, op.user, op.ids, key);
    }
  }

  lemma {:induction false} RanLast(g: Graph, ops: seq<Op>, op: Op)
    ensures Ran(g, ops + [op]) == Applied(Ran(g, ops), op)
    decreases |ops|
  {
    if ops == [] {
      assert ops + [op] == [op];
      assert Ran(g, [op]) == Ran(Applied(g, op), []);
    } else {
      assert (ops + [op])[1..] == ops[1..] + [op];
      RanLast(Applied(g, ops[0]), ops[1..], op);
    }
  }

  lemma {:induction false} UsersStand(g: Graph, ops: seq<Op>)
    ensures Accounts(Ran(g, ops)) == Accounts(g)
    decreases |ops|
  {
    if ops != [] {
      FollowSteps(g, ops[0], (0, 0));
      UsersStand(Applied(g, ops[0]), ops[1..]);
    }
  }

  lemma UnendedSteps(g: Graph, ops: seq<Op>, op: Op, key: (Uuid, GitHubId), k: nat)
    requires k <= |ops|
    ensures UnendedFrom(g, ops + [op], key, k) <==> UnendedFrom(g, ops, key, k) && !Ends(g, op, key)
  {
    var all := ops + [op];
    hide Ends;
    assert all[|ops|] == op;
    if UnendedFrom(g, all, key, k) {
      assert forall i :: k <= i < |ops| ==> ops[i] == all[i];
    }
  }

  lemma EstablishedSteps(g: Graph, ops: seq<Op>, op: Op, key: (Uuid, GitHubId), k: nat)
    ensures EstablishedAt(g, ops + [op], key, k) <==>
      (k == |ops| && Establishes(Ran(g, ops), op, key)) || (EstablishedAt(g, ops, key, k) && !Ends(g, op, key))
  {
    var all := ops + [op];
    hide Ran, Establishes, Ends;
    if k < |ops| {
      assert all[..k] == ops[..k];
      UnendedSteps(g, ops, op, key, k + 1);
    } else if k == |ops| {
      assert all[..k] == ops;
    }
  }

  lemma StandingSteps(g: Graph, ops: seq<Op>, op: Op, key: (Uuid, GitHubId))
    ensures Standing(g, ops + [op], key) <==>
      Establishes(Ran(g, ops), op, key) || (Standing(g, ops, key) && !Ends(g, op, key))
  {
    hide Ran, Establishes, Ends, Follows, EstablishedAt, UnendedFrom;
    forall k: nat
      ensures EstablishedAt(g, ops + [op], key, k) <==>
        (k == |ops| && Establishes(Ran(g, ops), op, key)) || (EstablishedAt(g, ops, key, k) && !Ends(g, op, key))
    {
      EstablishedSteps(g, ops, op, key, k);
    }
    UnendedSteps(g, ops, op, key, 0);
    if Establishes(Ran(g, ops), op, key) {
      assert EstablishedAt(g, ops + [op], key, |ops|);
    }
    if Standing(g, ops, key) && !Ends(g, op, key) && exists k :: EstablishedAt(g, ops, key, k) {
      var k :| EstablishedAt(g, ops, key, k);
      assert EstablishedAt(g, ops + [op], key, k);
    }
  }

  /**
   * After any run an account is followed exactly if some follow or import set the follow up and neither an
   * unfollow nor a block between the two came after, or if it was followed before and nothing ended it.
   */
  lemma {:induction false} FollowsExactly(g: Graph, ops: seq<Op>, key: (Uuid, GitHubId))
    ensures Follows(Ran(g, ops), key.0, key.1) <==> Standing(g, ops, key)
    decreases |ops|
  {
    if ops != [] {
      var init, last := ops[..|ops| - 1], ops[|ops| - 1];
      assert ops == init + [last];
      FollowsExactly(g, init, key);
      RanLast(g, init, last);
      UsersStand(g, init);
      FollowSteps(Ran(g, init), last, key);
      StandingSteps(g, init, last, key);
      AccountsTell(g, Ran(g, init));
      assert Ends(Ran(g, init), last, key) <==> Ends(g, last, key);
    }
  }

  // ----------------------------------------------------------------- tallies

  const SAMPLE_SIZE := 5

  datatype Summary = Summary(
    count: nat, added: nat, alreadyFollowing: nat, skippedUnfollowed: nat, skippedBlocked: nat, sample: seq<Identity>)

  function Tally(changes: seq<Change>, action: Action): nat {
    if changes == [] then 0
    else Tally(changes[..|changes| - 1], action) + if changes[|changes| - 1].action == action then 1 else 0
  }

  function AddedOnes(changes: seq<Change>): seq<Identity> {
    if changes == [] then []
    else AddedOnes(changes[..|changes| - 1]) + if changes[|changes| - 1].action.Added? then [changes[|changes| - 1].identity] else []
  }

  /** The mentions of an action. */
  function Having(changes: seq<Change>, action: Action): set<nat> {
    set k: nat | k < |changes| && changes[k].action == action
  }

  lemma {:induction false} TallyCounts(changes: seq<Change>, action: Action)
    ensures Tally(changes, action) == |Having(changes, action)|
  {
    if changes != [] {
      var init, last := changes[..|changes| - 1], |changes| - 1;
      TallyCounts(init, action);
      assert Having(changes, action) == Having(init, action) + if changes[last].action == action then {last} else {};
    } else {
      assert Having(changes, action) == {};
    }
  }

  /** The sample is taken from the added accounts and from nothing else, in their order. */
  lemma {:induction false} AddedOnesAre(changes: seq<Change>, k: nat)
    requires k < |changes|
    ensures AddedOnes(changes) ==
      AddedOnes(changes[..k]) + (if changes[k].action == Added then [changes[k].identity] else []) + AddedOnes(changes[k + 1..])
    ensures AddedOnes([]) == []
    decreases |changes|
  {
    var n := |changes| - 1;
    if k < n {
      AddedOnesAre(changes[..n], k);
      assert changes[..n][..k] == changes[..k] && changes[..n][k + 1..] == changes[k + 1..][..n - k - 1];
      assert changes[k + 1..][|changes[k + 1..]| - 1] == changes[n];
    } else {
      assert changes[k + 1..] == [] && AddedOnes([]) == [];
    }
  }

  lemma {:induction false} AddedOneIs(changes: seq<Change>, x: Identity)
    ensures x in AddedOnes(changes) <==> exists k :: 0 <= k < |changes| && changes[k] == Change(x, Added)
  {
    if changes != [] {
      var init, last := changes[..|changes| - 1], changes[|changes| - 1];
      AddedOneIs(init, x);
      if exists k :: 0 <= k < |init| && init[k] == Change(x, Added) {
        var k :| 0 <= k < |init| && init[k] == Change(x, Added);
        assert changes[k] == Change(x, Added);
      }
      if last == Change(x, Added) {
        assert changes[|changes| - 1] == Change(x, Added);
      }
    }
  }

  method Summarize(ids: seq<Identity>, changes: seq<Change>) returns (s: Summary)
    requires |changes| == |ids|
    ensures s.added == Tally(changes, Added) && s.alreadyFollowing == Tally(changes, AlreadyFollowing)
    ensures s.skippedUnfollowed == Tally(changes, SkippedUnfollowed) && s.skippedBlocked == Tally(changes, SkippedBlocked)
    ensures s.count == |ids| == s.added + s.alreadyFollowing + s.skippedUnfollowed + s.skippedBlocked
    ensures s.sample <= AddedOnes(changes) && |s.sample| == if s.added < SAMPLE_SIZE then s.added else SAMPLE_SIZE
  {
    s := Summary(|ids|, 0, 0, 0, 0, []);
    for i := 0 to |changes|
      invariant s.count == |ids|
      invariant s.added == Tally(changes[..i], Added) && s.alreadyFollowing == Tally(changes[..i], AlreadyFollowing)
      invariant s.skippedUnfollowed == Tally(changes[..i], SkippedUnfollowed) && s.skippedBlocked == Tally(changes[..i], SkippedBlocked)
      invariant s.added + s.alreadyFollowing + s.skippedUnfollowed + s.skippedBlocked == i
      invariant |AddedOnes(changes[..i])| == s.added && s.sample <= AddedOnes(changes[..i])
      invariant |s.sample| == if s.added < SAMPLE_SIZE then s.added else SAMPLE_SIZE
    {
      var c := changes[i];
      assert changes[..i + 1][..i] == changes[..i] && changes[..i + 1][i] == c;
      if c.action.Added? && |s.sample| < SAMPLE_SIZE {
        s := s.(sample := s.sample + [c.identity]);
      }
      match c.action {
        case Added => s := s.(added := s.added + 1);
        case AlreadyFollowing => s := s.(alreadyFollowing := s.alreadyFollowing + 1);
        case SkippedUnfollowed => s := s.(skippedUnfollowed := s.skippedUnfollowed + 1);
        case SkippedBlocked => s := s.(skippedBlocked := s.skippedBlocked + 1);
      }
    }
    assert changes[..|changes|] == changes;
  }
}
