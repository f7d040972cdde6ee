/**
 * The values the monitoring engine works on: the stored pull-request row and
 * what the GitHub client returns for one pull request. The client itself is
 * not modelled; its answer is a `Fetch` value handed to the engine.
 */
module PrTypes {
  import opened Wrappers
  import opened Decimal

  /** One row of the `pull_request` table (`PullRequestModel` in the source). */
  datatype PullRequestModel = PullRequestModel(
    owner: string,
    repo: string,
    prNumber: U64,
    title: string,
    state: string,
    closedAt: string,
    url: string)

  /** An instant as the client returns it; only its formatting is used, and that is a parameter. */
  datatype Timestamp = Timestamp(seconds: int)

  /** The issue state of a pull request; the client's enum is non-exhaustive, hence `OtherState`. */
  datatype IssueState = Open | Closed | OtherState

  /**
   * GitHub's mergeability signal as the client decodes it. `Unrecognized`
   * stands for the variants a non-exhaustive enum may gain later.
   */
  datatype MergeableState =
    | Behind | Blocked | Clean | Dirty | Draft | HasHooks | Unknown | Unstable
    | Unrecognized

  /** The fields of a fetched pull request that the engine reads. */
  datatype RemotePr = RemotePr(
    mergedAt: Option<Timestamp>,
    mergeableState: Option<MergeableState>,
    state: Option<IssueState>,
    title: Option<string>,
    closedAt: Option<Timestamp>,
    url: string)

  /** The outcome of building a client and asking it for one pull request. */
  datatype Fetch =
    | ClientBuildFailed
    | RequestFailed
    | Fetched(pr: RemotePr)
}
