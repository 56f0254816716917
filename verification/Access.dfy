/** Access over time: what blocks, follows and the clock do to what a viewer sees, over every run. */
module Access {
  import opened Options
  import opened ObjectKeys
  import opened Tables
  import opened SocialGraph
  import opened Visibility
  import FG = FollowGraph
  import P = Protocol
  import PI = PipelineInvariant
  import PS = PipelineSafety
  import PT = PipelineTheorems

  // ---------------------------------------------------------- who sees what, exactly

  /** The row of an active follow. */
  ghost predicate ActiveRow(g: Graph, follower: Uuid, followee: GitHubId) {
    (follower, followee) in g.relationships && g.relationships[(follower, followee)].state == Active
  }

  /** The audience names the viewer: by the rows between the two, or by a list of the author's that is not deleted. */
  ghost predicate Named(g: Graph, author: Uuid, viewer: Uuid, github: GitHubId, d: Draft)
    requires author in g.users
  {
    && (d.visibility == FollowersOfAuthor || d.visibility == Mutuals ==> ActiveRow(g, author, github))
    && (d.visibility == AuthorFollows || d.visibility == Mutuals ==> ActiveRow(g, viewer, g.users[author].github))
    && (d.visibility == CustomList ==>
         && d.audienceList.Some? && d.audienceList.value in g.lists
         && g.lists[d.audienceList.value].owner == author && !g.lists[d.audienceList.value].deleted
         && github in g.lists[d.audienceList.value].members)
  }

  /**
   * The access rules as the product states them: the item is live and its author's account stands; the author sees
   * it; anyone else sees it unless a block in either direction or the author's hide rule bars them, and only if the
   * audience names them.
   */
  lemma VisibleExactly(g: Graph, viewer: Uuid, github: GitHubId, now: int, s: Story)
    ensures VisibleToViewer(g, viewer, github, now, s) <==>
      && s.state == Published && s.publishedAt.Some? && s.expiresAt.Some? && now < s.expiresAt.value
      && s.author in g.users && !g.users[s.author].suspended && !g.users[s.author].deleted
      && (viewer == s.author
          || ((viewer, g.users[s.author].github) !in g.blocks && (s.author, github) !in g.blocks && (s.author, github) !in g.hides
              && Named(g, s.author, viewer, github, s.audience)))
  {
  }

  ghost predicate NeverLifted(ops: seq<FG.Op>, user: Uuid, target: GitHubId) {
    forall k :: 0 <= k < |ops| ==> ops[k] != FG.BlockOp(user, target, false)
  }

  lemma BlockStays(g: Graph, op: FG.Op, user: Uuid, target: GitHubId)
    requires (user, target) in g.blocks && op != FG.BlockOp(user, target, false)
    ensures (user, target) in FG.Applied(g, op).blocks && FG.Accounts(FG.Applied(g, op)) == FG.Accounts(g)
  {
    if op.ImportOp? {
      FG.ImportedRow(g, op.user, op.ids, (user, target));
    }
  }

  lemma {:induction false} BlockLasts(g: Graph, ops: seq<FG.Op>, user: Uuid, target: GitHubId)
    requires (user, target) in g.blocks && NeverLifted(ops, user, target)
    ensures (user, target) in FG.Ran(g, ops).blocks && FG.Accounts(FG.Ran(g, ops)) == FG.Accounts(g)
    decreases |ops|
  {
    if ops != [] {
      BlockStays(g, ops[0], user, target);
      hide FG.Applied;
      BlockLasts(FG.Applied(g, ops[0]), ops[1..], user, target);
    }
  }

  /**
   * From a block until it is lifted neither side sees anything of the other, whatever the audience of the item
   * and whoever follows, unfollows, imports or blocks whom in between: an explicit follow gains nothing.
   */
  lemma BlockDeniesBoth(g: Graph, user: Uuid, other: Uuid, ops: seq<FG.Op>, now: int, mine: Story, theirs: Story)
    requires user in g.users && other in g.users && user != other
    requires NeverLifted(ops, user, g.users[other].github)
    requires mine.author == user && theirs.author == other
    ensures var g' := FG.Ran(FG.Applied(g, FG.BlockOp(user, g.users[other].github, true)), ops);
      && !VisibleToViewer(g', user, g.users[user].github, now, theirs)
      && !VisibleToViewer(g', other, g.users[other].github, now, mine)
  {
    var blocked := FG.Applied(g, FG.BlockOp(user, g.users[other].github, true));
    BlockLasts(blocked, ops, user, g.users[other].github);
    FG.AccountsTell(blocked, FG.Ran(blocked, ops));
  }

  /** The item as it would be if it were public. */
  function Opened(s: Story): Story {
    For(s, Draft(Public, None))
  }

  /** The item under another audience. */
  function For(s: Story, draft: Draft): Story {
    s.(audience := draft)
  }

  /**
   * Whatever has been followed, unfollowed, blocked and imported, each follow audience is the public one cut down
   * to exactly those whose follow stands: a follow or import set it up and nothing has ended it since.
   */
  lemma FollowAudiencesExactly(g: Graph, ops: seq<FG.Op>, author: Uuid, viewer: Uuid, now: int, s: Story)
    requires author in g.users && viewer in g.users && author != viewer && s.author == author
    ensures var (g', a, v) := (FG.Ran(g, ops), g.users[author].github, g.users[viewer].github);
      var shown := VisibleToViewer(g', viewer, v, now, Opened(s));
      var (follower, followed) := (FG.Standing(g, ops, (author, v)), FG.Standing(g, ops, (viewer, a)));
      && (VisibleToViewer(g', viewer, v, now, For(s, Draft(FollowersOfAuthor, None))) <==> shown && follower)
      && (VisibleToViewer(g', viewer, v, now, For(s, Draft(AuthorFollows, None))) <==> shown && followed)
      && (VisibleToViewer(g', viewer, v, now, For(s, Draft(Mutuals, None))) <==> shown && follower && followed)
  {
    var (a, v) := (g.users[author].github, g.users[viewer].github);
    FG.FollowsExactly(g, ops, (author, v));
    FG.FollowsExactly(g, ops, (viewer, a));
    FG.UsersStand(g, ops);
    FG.AccountsTell(g, FG.Ran(g, ops));
  }

  // ------------------------------------------------------ hide rules, mutes, suspensions

  ghost predicate NeverUnhidden(ops: seq<FG.Op>, author: Uuid, target: GitHubId) {
    forall k :: 0 <= k < |ops| ==> ops[k] != FG.HideOp(author, target, false)
  }

  lemma {:induction false} HideLasts(g: Graph, ops: seq<FG.Op>, author: Uuid, target: GitHubId)
    requires (author, target) in g.hides && NeverUnhidden(ops, author, target)
    ensures (author, target) in FG.Ran(g, ops).hides
    decreases |ops|
  {
    if ops != [] {
      FG.ImportLeavesRules(g, ops[0]);
      assert (author, target) in FG.Applied(g, ops[0]).hides;
      hide FG.Applied;
      HideLasts(FG.Applied(g, ops[0]), ops[1..], author, target);
    }
  }

  /** From a hide rule until it is lifted its target sees nothing of the author, whatever the audience and whatever else happens. */
  lemma HideDenies(g: Graph, author: Uuid, viewer: Uuid, target: GitHubId, ops: seq<FG.Op>, now: int, s: Story)
    requires viewer != author && s.author == author && NeverUnhidden(ops, author, target)
    ensures !VisibleToViewer(FG.Ran(FG.Applied(g, FG.HideOp(author, target, true)), ops), viewer, target, now, s)
  {
    HideLasts(FG.Applied(g, FG.HideOp(author, target, true)), ops, author, target);
  }

  /** Two graphs that differ in one hide rule at most. */
  ghost predicate SameButHide(g: Graph, h: Graph, rule: (Uuid, GitHubId)) {
    g.(hides := {}) == h.(hides := {}) && forall x :: x != rule ==> (x in g.hides <==> x in h.hides)
  }

  lemma {:induction false} ImportReadsNoHides(g: Graph, hides: set<(Uuid, GitHubId)>, user: Uuid, ids: seq<FG.Identity>)
    ensures FG.Imported(g.(hides := hides), user, ids) == FG.Imported(g, user, ids).(hides := hides)
    decreases |ids|
  {
    if ids != [] {
      var t := ids[0].github;
      assert FG.BlockedEitherWay(g.(hides := hides), user, t) <==> FG.BlockedEitherWay(g, user, t);
      assert FG.ImportedOne(g.(hides := hides), user, t) == FG.ImportedOne(g, user, t).(hides := hides);
      hide FG.ImportedOne;
      ImportReadsNoHides(FG.ImportedOne(g, user, t), hides, user, ids[1..]);
    }
  }

  /** No other operation reads or writes the hide rules. */
  lemma OthersReadNoHides(g: Graph, hides: set<(Uuid, GitHubId)>, op: FG.Op)
    requires !op.HideOp?
    ensures FG.Applied(g.(hides := hides), op) == FG.Applied(g, op).(hides := hides)
    ensures FG.Applied(g, op).hides == g.hides
  {
    var h := g.(hides := hides);
    match op {
      case ImportOp(user, ids) =>
        ImportReadsNoHides(g, hides, user, ids);
        FG.ImportLeaves(g, user, ids);
        hide FG.Imported;
      case BlockOp(user, target, on) =>
        assert forall key :: FG.Between(g, user, target, key) <==> FG.Between(h, user, target, key);
        assert FG.Blocked(h, user, target).relationships == FG.Blocked(g, user, target).relationships;
      case _ =>
    }
  }

  lemma HideStep(g: Graph, h: Graph, op: FG.Op, rule: (Uuid, GitHubId))
    requires SameButHide(g, h, rule)
    ensures SameButHide(FG.Applied(g, op), FG.Applied(h, op), rule)
  {
    assert h == g.(hides := h.hides);
    if !op.HideOp? {
      OthersReadNoHides(g, h.hides, op);
      OthersReadNoHides(h, h.hides, op);
      hide FG.Applied;
    } else {
      forall x | x != rule
        ensures x in FG.Applied(g, op).hides <==> x in FG.Applied(h, op).hides
      {
        assert x in g.hides <==> x in h.hides;
      }
    }
  }

  lemma {:induction false} HideAlong(g: Graph, h: Graph, ops: seq<FG.Op>, rule: (Uuid, GitHubId))
    requires SameButHide(g, h, rule)
    ensures SameButHide(FG.Ran(g, ops), FG.Ran(h, ops), rule)
    decreases |ops|
  {
    if ops != [] {
      HideStep(g, h, ops[0], rule);
      hide FG.Applied, SameButHide;
      HideAlong(FG.Applied(g, ops[0]), FG.Applied(h, ops[0]), ops[1..], rule);
    }
  }

  /** Lifting a hide rule gives back everything: the graph is the one that it would be had the rule never been set. */
  lemma HideLeavesNoTrace(g: Graph, author: Uuid, target: GitHubId, ops: seq<FG.Op>)
    ensures FG.Applied(FG.Ran(FG.Applied(g, FG.HideOp(author, target, true)), ops), FG.HideOp(author, target, false))
      == FG.Applied(FG.Ran(g, ops), FG.HideOp(author, target, false))
  {
    HideAlong(FG.Applied(g, FG.HideOp(author, target, true)), g, ops, (author, target));
  }

  ghost predicate Untouched(ops: seq<FG.Op>, user: Uuid) {
    forall k :: 0 <= k < |ops| && ops[k].SuspendOp? ==> ops[k].user != user
  }

  ghost predicate Stands(g: Graph, user: Uuid) {
    user in g.users && !g.users[user].suspended && !g.users[user].deleted
  }

  lemma StandsStill(g: Graph, op: FG.Op, user: Uuid)
    requires op.SuspendOp? ==> op.user != user
    ensures Stands(FG.Applied(g, op), user) <==> Stands(g, user)
  {
    FG.ImportLeavesRules(g, op);
  }

  lemma {:induction false} StandsAlong(g: Graph, ops: seq<FG.Op>, user: Uuid)
    requires Untouched(ops, user)
    ensures Stands(FG.Ran(g, ops), user) <==> Stands(g, user)
    decreases |ops|
  {
    if ops != [] {
      StandsStill(g, ops[0], user);
      hide FG.Applied, Stands;
      StandsAlong(FG.Applied(g, ops[0]), ops[1..], user);
    }
  }

  /** No follow, block, hide rule, mute, list or other user's suspension ever costs authors their own live items. */
  lemma OwnItemStays(g: Graph, ops: seq<FG.Op>, author: Uuid, github: GitHubId, now: int, s: Story)
    requires s.author == author && Untouched(ops, author)
    ensures VisibleToViewer(FG.Ran(g, ops), author, github, now, s) <==> VisibleToViewer(g, author, github, now, s)
  {
    StandsAlong(g, ops, author);
  }

  ghost predicate NeverUnsuspended(ops: seq<FG.Op>, user: Uuid) {
    forall k :: 0 <= k < |ops| ==> ops[k] != FG.SuspendOp(user, false)
  }

  lemma {:induction false} SuspensionLasts(g: Graph, ops: seq<FG.Op>, user: Uuid)
    requires !Stands(g, user) && NeverUnsuspended(ops, user)
    ensures !Stands(FG.Ran(g, ops), user)
    decreases |ops|
  {
    if ops != [] {
      if ops[0].SuspendOp? && ops[0].user == user {
        assert ops[0] != FG.SuspendOp(user, false);
      } else {
        StandsStill(g, ops[0], user);
      }
      assert !Stands(FG.Applied(g, ops[0]), user);
      hide FG.Applied, Stands;
      SuspensionLasts(FG.Applied(g, ops[0]), ops[1..], user);
    }
  }

  /** While an author is suspended nobody sees their items, they themselves included; a deleted account shows nothing ever. */
  lemma SuspensionHides(g: Graph, ops: seq<FG.Op>, author: Uuid, viewer: Uuid, github: GitHubId, now: int, s: Story)
    requires s.author == author && NeverUnsuspended(ops, author)
    ensures !VisibleToViewer(FG.Ran(FG.Applied(g, FG.SuspendOp(author, true)), ops), viewer, github, now, s)
    ensures author !in g.users || g.users[author].deleted ==> !VisibleToViewer(FG.Ran(g, ops), viewer, github, now, s)
  {
    SuspensionLasts(FG.Applied(g, FG.SuspendOp(author, true)), ops, author);
    if author !in g.users || g.users[author].deleted {
      SuspensionLasts(g, ops, author);
    }
  }

  /** A mute is a matter of presentation: it changes what nobody may see. */
  lemma MuteIsNoRule(g: Graph, user: Uuid, target: GitHubId, on: bool, viewer: Uuid, github: GitHubId, now: int, s: Story)
    ensures VisibleToViewer(FG.Applied(g, FG.MuteOp(user, target, on)), viewer, github, now, s) <==> VisibleToViewer(g, viewer, github, now, s)
  {
    hide FG.Imported;
  }

  // -------------------------------------------------------------------- lists

  /** What later operations leave of a list: its owner, and a deletion for good. */
  lemma ListStep(g: Graph, op: FG.Op, id: Uuid)
    requires id in g.lists
    ensures var g' := FG.Applied(g, op);
      && id in g'.lists && g'.lists[id].owner == g.lists[id].owner
      && (g.lists[id].deleted ==> g'.lists[id] == g.lists[id])
      && (!(op.EditListOp? && op.list == id && op.user == g.lists[id].owner) && op != FG.DropListOp(id, g.lists[id].owner) ==>
            g'.lists[id] == g.lists[id])
  {
    FG.ImportLeavesRules(g, op);
  }

  lemma {:induction false} DroppedForGood(g: Graph, ops: seq<FG.Op>, id: Uuid)
    requires id in g.lists
    ensures id in FG.Ran(g, ops).lists && FG.Ran(g, ops).lists[id].owner == g.lists[id].owner
    ensures g.lists[id].deleted ==> FG.Ran(g, ops).lists[id].deleted
    decreases |ops|
  {
    if ops != [] {
      ListStep(g, ops[0], id);
      hide FG.Applied;
      DroppedForGood(FG.Applied(g, ops[0]), ops[1..], id);
    }
  }

  ghost predicate LeavesList(ops: seq<FG.Op>, id: Uuid, owner: Uuid) {
    forall k :: 0 <= k < |ops| ==>
      !(ops[k].EditListOp? && ops[k].list == id && ops[k].user == owner) && ops[k] != FG.DropListOp(id, owner)
  }

  lemma {:induction false} ListStands(g: Graph, ops: seq<FG.Op>, id: Uuid)
    requires id in g.lists && LeavesList(ops, id, g.lists[id].owner)
    ensures id in FG.Ran(g, ops).lists && FG.Ran(g, ops).lists[id] == g.lists[id]
    decreases |ops|
  {
    if ops != [] {
      ListStep(g, ops[0], id);
      hide FG.Applied;
      ListStands(FG.Applied(g, ops[0]), ops[1..], id);
    }
  }

  /**
   * A list audience is the public one cut down to the members its owner gave the list last, whatever anyone else
   * does to it; once the owner has deleted the list, and if the list is somebody else's, it admits nobody ever.
   */
  lemma ListAudienceExactly(g: Graph, ops: seq<FG.Op>, id: Uuid, author: Uuid, members: set<GitHubId>,
                            viewer: Uuid, github: GitHubId, now: int, s: Story)
    requires viewer != author && s.author == author && id in g.lists
    ensures var item := For(s, Draft(CustomList, Some(id)));
      && (g.lists[id].owner == author && !g.lists[id].deleted && LeavesList(ops, id, author) ==>
            var g' := FG.Ran(FG.Applied(g, FG.EditListOp(id, author, members)), ops);
            VisibleToViewer(g', viewer, github, now, item) <==> VisibleToViewer(g', viewer, github, now, Opened(s)) && github in members)
      && (g.lists[id].owner == author ==>
            !VisibleToViewer(FG.Ran(FG.Applied(g, FG.DropListOp(id, author)), ops), viewer, github, now, item))
      && (g.lists[id].owner != author ==> !VisibleToViewer(FG.Ran(g, ops), viewer, github, now, item))
  {
    if g.lists[id].owner == author {
      DroppedForGood(FG.Applied(g, FG.DropListOp(id, author)), ops, id);
      if !g.lists[id].deleted && LeavesList(ops, id, author) {
        ListStands(FG.Applied(g, FG.EditListOp(id, author, members)), ops, id);
      }
    } else {
      DroppedForGood(g, ops, id);
    }
  }

  /** A new list is its creator's, with the members it was created with. */
  lemma NewListAudience(g: Graph, ops: seq<FG.Op>, id: Uuid, author: Uuid, members: set<GitHubId>,
                        viewer: Uuid, github: GitHubId, now: int, s: Story)
    requires viewer != author && s.author == author && id !in g.lists && LeavesList(ops, id, author)
    ensures var g' := FG.Ran(FG.Applied(g, FG.CreateListOp(id, author, members)), ops);
      VisibleToViewer(g', viewer, github, now, For(s, Draft(CustomList, Some(id)))) <==>
        VisibleToViewer(g', viewer, github, now, Opened(s)) && github in members
  {
    ListStands(FG.Applied(g, FG.CreateListOp(id, author, members)), ops, id);
  }

  // ------------------------------------------------------------- access and time

  /** The item is published and its time is not up: the clock and the life cycle let it be seen. */
  ghost predicate OnShow(w: P.World, story: Uuid) {
    story in w.db.stories && Live(w.db.stories[story], w.now)
  }

  ghost predicate VisibleIn(w: P.World, story: Uuid, g: Graph, viewer: Uuid, github: GitHubId) {
    story in w.db.stories && VisibleToViewer(g, viewer, github, w.now, w.db.stories[story])
  }

  lemma StoryBetween(w: P.World, steps: seq<P.Action>, w': P.World, story: Uuid)
    requires P.Reachable(w) && P.Path(w, steps, w') && story in w.db.stories
    ensures story in w'.db.stories && PI.StoryStep(w.db.stories[story], w'.db.stories[story]) && w.now <= w'.now
    ensures PI.Dated(w'.db.stories[story], w'.now, w.lifetime)
    ensures P.Reachable(w')
  {
    PT.StoryHistory(w, steps, w', story);
    hide PS.Inv, PI.StoryStep, PI.Dated;
    var w0: P.World, before: seq<P.Action> :| P.Initial(w0) && P.Path(w0, before, w);
    P.PathJoin(w0, before, w, steps, w');
    hide P.Reachable;
    PT.ReachableInv(w);
    PT.PathKept(w, steps, w');
    PT.KeptStory(w, w', story);
  }

  /**
   * An item that has once stopped being on show, by expiry, deletion, removal or failure, is hidden for good:
   * from everyone, its author included, in every later state and whatever becomes of the graph.
   */
  lemma HiddenForGood(w: P.World, steps: seq<P.Action>, w': P.World, story: Uuid, g: Graph, viewer: Uuid, github: GitHubId)
    requires P.Reachable(w) && P.Path(w, steps, w') && story in w.db.stories
    requires !w.db.stories[story].state.Processing? && !OnShow(w, story)
    ensures !VisibleIn(w', story, g, viewer, github)
  {
    PT.ReachableInv(w);
    PS.StoryDated(w, story);
    hide PS.Inv, P.Reachable;
    StoryBetween(w, steps, w', story);
  }

  /**
   * An item is seen during one unbroken stretch of time, shorter than the lifetime, whoever sees it first and
   * last; and once on show it stays so exactly until it is expired, deleted or removed.
   */
  lemma SeenOnce(w: P.World, first: seq<P.Action>, mid: P.World, rest: seq<P.Action>, w': P.World, story: Uuid)
    requires P.Reachable(w) && P.Path(w, first, mid) && P.Path(mid, rest, w') && OnShow(w, story)
    ensures forall g, viewer, github :: VisibleIn(w', story, g, viewer, github) ==>
      OnShow(mid, story) && w'.now - w.now < w.lifetime
    ensures story in w'.db.stories
    ensures OnShow(w', story) <==> !w'.db.stories[story].state.Gone() && w'.now < w.db.stories[story].expiresAt.value
  {
    hide P.Reachable, P.Path, PS.Inv;
    PT.ReachableInv(w);
    PS.StoryDated(w, story);
    StoryBetween(w, first, mid, story);
    StoryBetween(mid, rest, w', story);
  }
}
