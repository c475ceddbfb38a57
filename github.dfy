/** Value snapshots the handlers receive from GitHub and from the local
    configuration. */
module GitHub {
  import opened Base

  /** A configured GitHub account: the host name and the login on it. */
  datatype Host = Host(name: string, user: string)

  /** A repository on GitHub. An empty `host` leaves the choice of host
      to the project constructor (github.NewProject). */
  datatype Project = Project(host: string, owner: string, name: string)

  /** Repository metadata as GitHub returns it. */
  datatype Repository = Repository(
    ownerLogin: string,
    name: string,
    isPrivate: bool,
    canPush: bool,   // Permissions.Push of the authenticated user
    hasWiki: bool)

  /** The fields of a pull request the handlers look at; `mergedAt` is None
      for the zero time (never merged). */
  datatype PullRequest = PullRequest(htmlUrl: string, mergedAt: Option<int>)
}
