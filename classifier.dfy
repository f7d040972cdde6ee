/** The status classification of `needs_update_pr`. */
module Classifier {
  import opened Wrappers
  import opened PrTypes

  /** The six outcomes a scan can assign to a tracked pull request. */
  datatype PrStatus = Merged | Behind | UpToDate | Conflicts | Blocked | Unknown

  /**
   * Classifies the client's answer for one pull request: merged first, then the
   * mergeability signal, and `Unknown` for a failed client build, a failed
   * request, an absent signal or any signal without a mapping of its own.
   */
  function Classify(fetch: Fetch): (s: PrStatus)
    ensures s == Merged <==> fetch.Fetched? && fetch.pr.mergedAt.Some?
    ensures s == PrStatus.Behind <==>
      fetch.Fetched? && fetch.pr.mergedAt.None? && fetch.pr.mergeableState == Some(MergeableState.Behind)
    ensures s == UpToDate <==>
      fetch.Fetched? && fetch.pr.mergedAt.None? && fetch.pr.mergeableState == Some(MergeableState.Clean)
    ensures s == Conflicts <==>
      fetch.Fetched? && fetch.pr.mergedAt.None? && fetch.pr.mergeableState == Some(MergeableState.Dirty)
    ensures s == PrStatus.Blocked <==>
      fetch.Fetched? && fetch.pr.mergedAt.None? && fetch.pr.mergeableState == Some(MergeableState.Blocked)
  {
    match fetch
    case ClientBuildFailed => PrStatus.Unknown
    case RequestFailed => PrStatus.Unknown
    case Fetched(pr) =>
      if pr.mergedAt.Some? then Merged
      else match pr.mergeableState
        case None => PrStatus.Unknown
        case Some(m) =>
          match m
          case Behind => PrStatus.Behind
          case Clean => UpToDate
          case Dirty => Conflicts
          case Unknown => PrStatus.Unknown
          case Blocked => PrStatus.Blocked
          case Unstable => PrStatus.Unknown
          case _ => PrStatus.Unknown
  }

  /** A merged pull request is `Merged` whatever its mergeability signal says. */
  lemma MergedWins(pr: RemotePr, m: Option<MergeableState>)
    requires pr.mergedAt.Some?
    ensures Classify(Fetched(pr.(mergeableState := m))) == Merged
  {
  }

  /**
   * Everything that is neither merged nor behind, clean, dirty or blocked is
   * `Unknown`: a failed build or request, an absent signal, and the signals
   * unknown, unstable, draft, has-hooks and any future one.
   */
  lemma UnknownIsTheFallback(fetch: Fetch)
    ensures Classify(fetch) == PrStatus.Unknown <==>
      || !fetch.Fetched?
      || (fetch.pr.mergedAt.None? &&
          (|| fetch.pr.mergeableState.None?
           || fetch.pr.mergeableState.value in
                {MergeableState.Unknown, Unstable, Draft, HasHooks, Unrecognized}))
  {
  }
}
