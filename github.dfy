/**
 * The parts of a GitHub pull-request webhook payload that the draft plugin
 * reads once the payload has been decoded.
 */
module GitHub {

  datatype User = User(login: string)

  datatype Repo = Repo(owner: User, name: string)

  /** One side (base or head) of a pull request. */
  datatype PullRequestBranch = PullRequestBranch(ref: string, sha: string, repo: Repo)

  datatype PullRequest = PullRequest(
    number: int,
    user: User,
    base: PullRequestBranch,
    head: PullRequestBranch,
    draft: bool)

  /** A decoded `pull_request` event: the action, the pull request and the repository it was sent for. */
  datatype PullRequestEvent = PullRequestEvent(
    action: string,
    number: int,
    pullRequest: PullRequest,
    repo: Repo)

  /** The action names the plugin reacts to. */
  const PullRequestActionOpened: string := "opened"
  const PullRequestActionSynchronize: string := "synchronize"
  const PullRequestActionConvertedToDraft: string := "converted_to_draft"
}
