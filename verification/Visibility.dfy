/** Who may see a story item: one predicate over the social graph and the clock. */
module Visibility {
  import opened Options
  import opened ObjectKeys
  import opened Tables
  import opened SocialGraph

  /** Everything a read consults: the graph, the tables, the caller and the caller's clock. */
  datatype Reader = Reader(g: Graph, db: Db, viewer: Uuid, github: GitHubId, now: int)

  predicate LiveFor(g: Graph, s: Story, now: int) {
    && Live(s, now)
    && s.author in g.users && !g.users[s.author].suspended && !g.users[s.author].deleted
  }

  predicate BlockedBetween(g: Graph, viewer: Uuid, github: GitHubId, author: Uuid)
    requires author in g.users
  {
    (viewer, g.users[author].github) in g.blocks || (author, github) in g.blocks
  }

  predicate InAudience(g: Graph, viewer: Uuid, github: GitHubId, s: Story)
    requires s.author in g.users
  {
    match s.audience.visibility
    case FollowersOfAuthor => Follows(g, s.author, github)
    case AuthorFollows => Follows(g, viewer, g.users[s.author].github)
    case Mutuals => Follows(g, s.author, github) && Follows(g, viewer, g.users[s.author].github)
    case CustomList =>
      && s.audience.audienceList.Some? && s.audience.audienceList.value in g.lists
      && var l := g.lists[s.audience.audienceList.value];
         l.owner == s.author && !l.deleted && github in l.members
    case Public => true
  }

  predicate VisibleToViewer(g: Graph, viewer: Uuid, github: GitHubId, now: int, s: Story) {
    && LiveFor(g, s, now)
    && (s.author == viewer
        || (!BlockedBetween(g, viewer, github, s.author)
            && (s.author, github) !in g.hides
            && InAudience(g, viewer, github, s)))
  }

  predicate PublicStory(g: Graph, now: int, s: Story) {
    LiveFor(g, s, now) && s.audience.visibility == Public
  }

  predicate Visible(r: Reader, story: Uuid) {
    story in r.db.stories && VisibleToViewer(r.g, r.viewer, r.github, r.now, r.db.stories[story])
  }

  predicate Seen(r: Reader, story: Uuid) {
    (story, r.viewer) in r.db.views
  }

  /** Someone the graph knows nothing about. */
  ghost predicate Stranger(g: Graph, viewer: Uuid, github: GitHubId) {
    && viewer !in g.users
    && (forall e :: e in g.relationships ==> e.0 != viewer && e.1 != github)
    && (forall e :: e in g.blocks || e in g.hides ==> e.0 != viewer && e.1 != github)
    && (forall l :: l in g.lists ==> github !in g.lists[l].members)
  }

  /** Anonymous access is exactly what a signed-in stranger gets, at every instant. */
  lemma PublicIsWhatStrangersSee(g: Graph, viewer: Uuid, github: GitHubId, now: int, s: Story)
    requires Stranger(g, viewer, github)
    ensures VisibleToViewer(g, viewer, github, now, s) <==> PublicStory(g, now, s)
  {
    if s.author in g.users {
      assert (viewer, g.users[s.author].github) !in g.relationships;
      assert (s.author, github) !in g.relationships;
      assert (viewer, g.users[s.author].github) !in g.blocks && (s.author, github) !in g.blocks;
    }
  }
}
