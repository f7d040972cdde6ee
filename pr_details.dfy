/** The row that `get_pr_details` builds from the client's answer. */
module PrDetails {
  import opened Wrappers
  import opened Decimal
  import opened PrTypes

  const LoadError: string := "Can't load pr details"

  /** The stored `state` string for the client's issue state. */
  function StateName(s: Option<IssueState>): (name: string)
    ensures name == "open" <==> s == Some(Open)
    ensures name == "closed" <==> s == Some(Closed)
    ensures name == "" <==> s !in {Some(Open), Some(Closed)}
  {
    match s
    case Some(Open) => "open"
    case Some(Closed) => "closed"
    case _ => ""
  }

  /**
   * `get_pr_details` once the client has answered with `fetch`. The number
   * string must parse as a `u64` (the source unwraps that parse), and
   * `formatDate` stands for formatting an instant as "%d/%m/%Y %H:%M".
   * A row is produced exactly when the pull request was fetched and carries a
   * mergeability signal; every other answer is the one load error.
   */
  function GetPrDetails(owner: string, repo: string, prNumber: string, fetch: Fetch,
                        formatDate: Timestamp -> string): (r: Result<PullRequestModel, string>)
    requires prNumber != [] && IsDigits(prNumber) && Value(prNumber) < U64_LIMIT
    ensures r.Ok? <==> fetch.Fetched? && fetch.pr.mergeableState.Some?
    ensures r.Err? ==> r.error == LoadError
    ensures r.Ok? ==>
      && r.value.owner == owner
      && r.value.repo == repo
      && r.value.prNumber as int == Value(prNumber)
      && r.value.url == fetch.pr.url
    ensures r.Ok? ==> r.value.state == StateName(fetch.pr.state)
    ensures r.Ok? ==> r.value.title == (if fetch.pr.title.Some? then fetch.pr.title.value else "")
    ensures r.Ok? && fetch.pr.closedAt.None? ==> r.value.closedAt == ""
    ensures r.Ok? && fetch.pr.closedAt.Some? ==> r.value.closedAt == formatDate(fetch.pr.closedAt.value)
  {
    var number := Value(prNumber) as U64;
    match fetch
    case ClientBuildFailed => Err(LoadError)
    case RequestFailed => Err(LoadError)
    case Fetched(pr) =>
      if pr.mergeableState.None? then Err(LoadError)
      else
        var closedStr := if pr.closedAt.Some? then formatDate(pr.closedAt.value) else "";
        Ok(PullRequestModel(
          owner, repo, number,
          if pr.title.Some? then pr.title.value else "",
          StateName(pr.state),
          closedStr,
          pr.url))
  }
}
