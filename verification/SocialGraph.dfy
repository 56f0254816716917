/** The follow graph: native follows, GitHub imports, tombstones and blocks. */
module SocialGraph {
  import opened Options
  import opened ObjectKeys

  type GitHubId = int

  datatype User = User(github: GitHubId, suspended: bool, deleted: bool)

  datatype RelationshipState = Active | Unfollowed
  datatype Provenance = GitHubImport | StoriesNative
  datatype Relationship = Relationship(state: RelationshipState, provenance: Provenance)

  datatype AudienceList = AudienceList(owner: Uuid, deleted: bool, members: set<GitHubId>)

  datatype Graph = Graph(
    users: map<Uuid, User>,
    relationships: map<(Uuid, GitHubId), Relationship>,
    blocks: set<(Uuid, GitHubId)>,
    hides: set<(Uuid, GitHubId)>,
    mutes: set<(Uuid, GitHubId)>,
    lists: map<Uuid, AudienceList>)

  /** users.github_user_id is unique. */
  ghost predicate GitHubIdsUnique(g: Graph) {
    forall u, v :: u in g.users && v in g.users && g.users[u].github == g.users[v].github ==> u == v
  }

  predicate Follows(g: Graph, follower: Uuid, followee: GitHubId) {
    (follower, followee) in g.relationships && g.relationships[(follower, followee)].state.Active?
  }
}
