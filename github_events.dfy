/** The GitHub event kinds a webhook delivery can name (`org.kohsuke.github.GHEvent`). */
module GitHubEvents {

  /** The event kinds, in the names GitHub gives them; `Push` is the only one
      the default subscriber handles. */
  datatype GHEvent =
    | CommitComment
    | Create
    | Delete
    | Deployment
    | DeploymentStatus
    | Fork
    | Gollum
    | IssueComment
    | Issues
    | Member
    | PageBuild
    | Ping
    | Public
    | PullRequest
    | PullRequestReviewComment
    | Push
    | Release
    | Repository
    | Status
    | TeamAdd
    | Watch
}
