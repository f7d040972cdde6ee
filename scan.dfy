/**
 * One pass of the scan loop over the open rows (the `for pr in ...` body of
 * the spawned task): fetch, classify, dispatch. The remote answers are
 * parameters: `remote(token, row)` is what `needs_update_pr` is told by the
 * client and `updateOk(token, row)` whether `update_pr_branch` succeeds.
 */
module Scan {
  import opened Wrappers
  import opened Decimal
  import opened PrTypes
  import opened Classifier
  import opened RecordStore

  /** What the engine does to the outside world, in the order it does it. */
  datatype Effect =
    | FetchStatus(number: U64)       // the call of `needs_update_pr` for this row
    | PrClosed(number: U64)          // the `pr-closed` event
    | UpdateBranch(number: U64)      // the call of `update_pr_branch` for this row
    | Notify(notice: Notice)

  /** Why a pull request was not updated. */
  datatype Reason = HasConflicts | IsBlocked | StatusUnknown

  /** The desktop notifications the task shows; their texts are `Title` and `Body`. */
  datatype Notice =
    | FailedUpdate                        // a branch update failed
    | NotUpdated(number: U64, reason: Reason)

  const FailedUpdateTitle: string := "Failed to update PR"
  const UpdateError: string := "Can't update pr branch"
  const ConflictsBody: string := "PR has conflicts, please check the PR"
  const BlockedBody: string := "PR is blocked, please check the PR"
  const UnknownBody: string := "PR status is unknown, please check the PR"

  function NotUpdatedTitle(n: U64): string {
    "PR Not Updated: " + Digits(n as nat)
  }

  function Title(n: Notice): string {
    match n
    case FailedUpdate => FailedUpdateTitle
    case NotUpdated(number, _) => NotUpdatedTitle(number)
  }

  /** The failed-update notice shows the error `update_pr_branch` returns. */
  function Body(n: Notice): string {
    match n
    case FailedUpdate => UpdateError
    case NotUpdated(_, HasConflicts) => ConflictsBody
    case NotUpdated(_, IsBlocked) => BlockedBody
    case NotUpdated(_, StatusUnknown) => UnknownBody
  }

  /** The notification a failed branch update shows. */
  const FailedUpdateNotice: Effect := Notify(FailedUpdate)

  /** The store after one dispatch, its effects, and whether the task returned. */
  datatype Dispatched = Dispatched(records: seq<PullRequestModel>, effects: seq<Effect>, ended: bool)

  /** The `match pr_status` arms for one row. */
  function DispatchOne(records: seq<PullRequestModel>, pr: PullRequestModel, status: PrStatus,
                       updateOk: bool): (d: Dispatched)
    ensures d.records == if status == Merged then CloseByNumber(records, pr.prNumber) else records
    ensures d.ended <==> status == PrStatus.Behind && !updateOk
    ensures status == Merged ==> d.effects == [PrClosed(pr.prNumber)]
    ensures status == UpToDate ==> d.effects == []
    ensures status == PrStatus.Behind ==>
      d.effects == [UpdateBranch(pr.prNumber)] + (if updateOk then [] else [FailedUpdateNotice])
    ensures status == Conflicts || status == PrStatus.Blocked || status == PrStatus.Unknown ==>
      |d.effects| == 1 && d.effects[0].Notify? && Title(d.effects[0].notice) == NotUpdatedTitle(pr.prNumber)
    ensures status == Conflicts ==> Body(d.effects[0].notice) == ConflictsBody
    ensures status == PrStatus.Blocked ==> Body(d.effects[0].notice) == BlockedBody
    ensures status == PrStatus.Unknown ==> Body(d.effects[0].notice) == UnknownBody
  {
    match status
    case Merged => Dispatched(CloseByNumber(records, pr.prNumber), [PrClosed(pr.prNumber)], false)
    case UpToDate => Dispatched(records, [], false)
    case Behind =>
      if updateOk then Dispatched(records, [UpdateBranch(pr.prNumber)], false)
      else Dispatched(records, [UpdateBranch(pr.prNumber), FailedUpdateNotice], true)
    case Conflicts => Dispatched(records, [Notify(NotUpdated(pr.prNumber, HasConflicts))], false)
    case Blocked => Dispatched(records, [Notify(NotUpdated(pr.prNumber, IsBlocked))], false)
    case Unknown => Dispatched(records, [Notify(NotUpdated(pr.prNumber, StatusUnknown))], false)
  }

  /** The store after a pass, its effects, and whether the task goes on to sleep and loop again. */
  datatype ScanEnd = ScanEnd(records: seq<PullRequestModel>, effects: seq<Effect>, alive: bool)

  /** A row after the pass: as it was, or the same row closed. */
  predicate SameOrClosed(before: PullRequestModel, after: PullRequestModel) {
    after == before || after == AsClosed(before)
  }

  /**
   * One row of a pass: the fetch, then the flag check and, when the flag is
   * set, the dispatch; `ended` says the task stops at this row.
   */
  function VisitRow(records: seq<PullRequestModel>, pr: PullRequestModel, running: bool,
                    token: string, remote: (string, PullRequestModel) -> Fetch,
                    updateOk: (string, PullRequestModel) -> bool): Dispatched
  {
    var fetched := [FetchStatus(pr.prNumber)];
    if !running then Dispatched(records, fetched, true)
    else
      var d := DispatchOne(records, pr, Classify(remote(token, pr)), updateOk(token, pr));
      Dispatched(d.records, fetched + d.effects, d.ended)
  }

  /**
   * The rest of a pass, over the rows `pending` still to visit. `running` is
   * the flag read under the lock the task holds for the whole pass, so it
   * cannot change during it. After every fetch the task stops if the flag is
   * false; a failed branch update returns from the task; after the last row
   * the task lives on exactly when the flag is true.
   */
  function ScanFrom(records: seq<PullRequestModel>, pending: seq<PullRequestModel>, running: bool,
                    token: string, remote: (string, PullRequestModel) -> Fetch,
                    updateOk: (string, PullRequestModel) -> bool): (r: ScanEnd)
    ensures r.alive ==> running
    decreases |pending|
  {
    if pending == [] then ScanEnd(records, [], running)
    else
      var v := VisitRow(records, pending[0], running, token, remote, updateOk);
      if v.ended then ScanEnd(v.records, v.effects, false)
      else
        var rest := ScanFrom(v.records, pending[1..], running, token, remote, updateOk);
        ScanEnd(rest.records, v.effects + rest.effects, rest.alive)
  }

  /** A pass only ever closes rows: it adds, removes and reorders none and changes no other field. */
  lemma {:induction false} ScanOnlyCloses(records: seq<PullRequestModel>, pending: seq<PullRequestModel>,
                                          running: bool, token: string,
                                          remote: (string, PullRequestModel) -> Fetch,
                                          updateOk: (string, PullRequestModel) -> bool)
    ensures var r := ScanFrom(records, pending, running, token, remote, updateOk);
      && |r.records| == |records|
      && forall i :: 0 <= i < |records| ==> SameOrClosed(records[i], r.records[i])
    decreases |pending|
  {
    if pending != [] && running {
      var pr := pending[0];
      var d := DispatchOne(records, pr, Classify(remote(token, pr)), updateOk(token, pr));
      if !d.ended {
        ScanOnlyCloses(d.records, pending[1..], running, token, remote, updateOk);
      }
    }
  }

  /** Regrouping a log that grows in three parts. */
  lemma AppendAssoc(a: seq<Effect>, b: seq<Effect>, c: seq<Effect>)
    ensures a + (b + c) == (a + b) + c
  {
  }

  /** `ScanFrom` from position `i` on, one row unfolded. */
  lemma ScanFromAt(records: seq<PullRequestModel>, pending: seq<PullRequestModel>, i: nat, running: bool,
                   token: string, remote: (string, PullRequestModel) -> Fetch,
                   updateOk: (string, PullRequestModel) -> bool)
    requires i < |pending|
    ensures var v := VisitRow(records, pending[i], running, token, remote, updateOk);
      var rest := ScanFrom(v.records, pending[i + 1..], running, token, remote, updateOk);
      ScanFrom(records, pending[i..], running, token, remote, updateOk) ==
        if v.ended then ScanEnd(v.records, v.effects, false)
        else ScanEnd(rest.records, v.effects + rest.effects, rest.alive)
  {
    assert pending[i..][1..] == pending[i + 1..];
  }

  /**
   * Progress through a pass: with rows `pending[i..]` still to visit, the
   * store at `records` and the effects `done` so far, finishing the pass
   * gives `total`.
   */
  predicate Remaining(records: seq<PullRequestModel>, pending: seq<PullRequestModel>, i: nat, running: bool,
                      token: string, remote: (string, PullRequestModel) -> Fetch,
                      updateOk: (string, PullRequestModel) -> bool, done: seq<Effect>, total: ScanEnd)
    requires i <= |pending|
  {
    var rest := ScanFrom(records, pending[i..], running, token, remote, updateOk);
    rest.records == total.records && done + rest.effects == total.effects && rest.alive == total.alive
  }

  /** Visiting row `i`: the pass either stops there, with `total` reached, or goes on to row `i + 1`. */
  lemma RemainingStep(records: seq<PullRequestModel>, pending: seq<PullRequestModel>, i: nat, running: bool,
                      token: string, remote: (string, PullRequestModel) -> Fetch,
                      updateOk: (string, PullRequestModel) -> bool, done: seq<Effect>, total: ScanEnd)
    requires i < |pending| && Remaining(records, pending, i, running, token, remote, updateOk, done, total)
    ensures var v := VisitRow(records, pending[i], running, token, remote, updateOk);
      && (v.ended ==> v.records == total.records && done + v.effects == total.effects && !total.alive)
      && (!v.ended ==> Remaining(v.records, pending, i + 1, running, token, remote, updateOk,
                                 done + v.effects, total))
  {
    ScanFromAt(records, pending, i, running, token, remote, updateOk);
    var v := VisitRow(records, pending[i], running, token, remote, updateOk);
    var rest := ScanFrom(v.records, pending[i + 1..], running, token, remote, updateOk);
    AppendAssoc(done, v.effects, rest.effects);
  }

  /**
   * With the flag false the pass fetches the first row (if any), dispatches
   * nothing, changes no row and ends the task.
   */
  lemma StoppedPassDispatchesNothing(records: seq<PullRequestModel>, pending: seq<PullRequestModel>,
                                     token: string, remote: (string, PullRequestModel) -> Fetch,
                                     updateOk: (string, PullRequestModel) -> bool)
    ensures var r := ScanFrom(records, pending, false, token, remote, updateOk);
      && r.records == records
      && r.effects == (if pending == [] then [] else [FetchStatus(pending[0].prNumber)])
      && !r.alive
  {
  }

  /** Every Behind row in `pending` gets its branch updated. */
  predicate UpdatesSucceed(pending: seq<PullRequestModel>, token: string,
                           remote: (string, PullRequestModel) -> Fetch,
                           updateOk: (string, PullRequestModel) -> bool) {
    forall i :: 0 <= i < |pending| && Classify(remote(token, pending[i])) == PrStatus.Behind ==>
      updateOk(token, pending[i])
  }

  /** How many rows of `pending` with number `n` are classified Merged. */
  function MergedCount(pending: seq<PullRequestModel>, n: U64, token: string,
                       remote: (string, PullRequestModel) -> Fetch): nat
  {
    if pending == [] then 0
    else
      (if pending[0].prNumber == n && Classify(remote(token, pending[0])) == Merged then 1 else 0)
      + MergedCount(pending[1..], n, token, remote)
  }

  /** Counting one effect over a log grown in two parts. */
  lemma CountAppend(a: seq<Effect>, b: seq<Effect>, x: Effect)
    ensures multiset(a + b)[x] == multiset(a)[x] + multiset(b)[x]
  {
    assert multiset(a + b) == multiset(a) + multiset(b);
  }

  /** One visited row with the flag set and a successful update, if one is made. */
  lemma VisitWithoutFailure(records: seq<PullRequestModel>, pr: PullRequestModel, token: string,
                            remote: (string, PullRequestModel) -> Fetch,
                            updateOk: (string, PullRequestModel) -> bool, n: U64)
    requires Classify(remote(token, pr)) == PrStatus.Behind ==> updateOk(token, pr)
    ensures var v := VisitRow(records, pr, true, token, remote, updateOk);
      var merged := Classify(remote(token, pr)) == Merged;
      && !v.ended
      && multiset(v.effects)[PrClosed(n)] == (if pr.prNumber == n && merged then 1 else 0)
      && v.records == if merged then CloseByNumber(records, pr.prNumber) else records
  {
    var d := DispatchOne(records, pr, Classify(remote(token, pr)), updateOk(token, pr));
    CountAppend([FetchStatus(pr.prNumber)], d.effects, PrClosed(n));
  }

  /**
   * A full pass with the flag set and no failed update: the task lives on, each
   * number gets one `pr-closed` event per Merged row that carries it, and a
   * row ends up closed exactly when some Merged row shares its number (or it
   * was closed already); every other row is untouched.
   */
  lemma {:induction false} FullPass(records: seq<PullRequestModel>, pending: seq<PullRequestModel>,
                                    token: string, remote: (string, PullRequestModel) -> Fetch,
                                    updateOk: (string, PullRequestModel) -> bool, n: U64)
    requires UpdatesSucceed(pending, token, remote, updateOk)
    ensures var r := ScanFrom(records, pending, true, token, remote, updateOk);
      && r.alive
      && |r.records| == |records|
      && multiset(r.effects)[PrClosed(n)] == MergedCount(pending, n, token, remote)
      && forall i :: 0 <= i < |records| && records[i].prNumber == n ==>
           r.records[i] == if MergedCount(pending, n, token, remote) > 0 then AsClosed(records[i]) else records[i]
    decreases |pending|
  {
    if pending != [] {
      var pr := pending[0];
      assert UpdatesSucceed(pending[1..], token, remote, updateOk) by {
        forall i | 0 <= i < |pending[1..]| && Classify(remote(token, pending[1..][i])) == PrStatus.Behind
          ensures updateOk(token, pending[1..][i])
        {
          assert pending[1..][i] == pending[i + 1];
        }
      }
      var v := VisitRow(records, pr, true, token, remote, updateOk);
      VisitWithoutFailure(records, pr, token, remote, updateOk, n);
      var rest := ScanFrom(v.records, pending[1..], true, token, remote, updateOk);
      FullPass(v.records, pending[1..], token, remote, updateOk, n);
      CountAppend(v.effects, rest.effects, PrClosed(n));
      forall i | 0 <= i < |records| && records[i].prNumber == n
        ensures rest.records[i] == if MergedCount(pending, n, token, remote) > 0 then AsClosed(records[i]) else records[i]
      {
        assert v.records[i].prNumber == n;
      }
    }
    ScanOnlyCloses(records, pending, true, token, remote, updateOk);
  }

  /** How many rows of `pending` carry number `n`. */
  function NumberCount(pending: seq<PullRequestModel>, n: U64): nat {
    if pending == [] then 0
    else (if pending[0].prNumber == n then 1 else 0) + NumberCount(pending[1..], n)
  }

  lemma {:induction false} MergedCountAtMostNumberCount(pending: seq<PullRequestModel>, n: U64, token: string,
                                                        remote: (string, PullRequestModel) -> Fetch)
    ensures MergedCount(pending, n, token, remote) <= NumberCount(pending, n)
    decreases |pending|
  {
    if pending != [] {
      MergedCountAtMostNumberCount(pending[1..], n, token, remote);
    }
  }

  /** In a table without repeated numbers each number occurs at most once. */
  lemma {:induction false} UniqueNumberCount(pending: seq<PullRequestModel>, n: U64)
    requires UniqueNumbers(pending)
    ensures NumberCount(pending, n) <= 1
    ensures NumberCount(pending, n) == 1 <==> exists i :: 0 <= i < |pending| && pending[i].prNumber == n
    decreases |pending|
  {
    if pending != [] {
      assert UniqueNumbers(pending[1..]) by {
        forall i, j | 0 <= i < j < |pending[1..]| ensures pending[1..][i].prNumber != pending[1..][j].prNumber {
          assert pending[1..][i] == pending[i + 1] && pending[1..][j] == pending[j + 1];
        }
      }
      UniqueNumberCount(pending[1..], n);
      if pending[0].prNumber == n {
        forall i | 0 <= i < |pending[1..]| ensures pending[1..][i].prNumber != n {
          assert pending[1..][i] == pending[i + 1];
        }
      }
      if exists i :: 0 <= i < |pending| && pending[i].prNumber == n {
        var i :| 0 <= i < |pending| && pending[i].prNumber == n;
        if i > 0 {
          assert pending[1..][i - 1] == pending[i];
        }
      }
    }
  }

  /**
   * The three "not updated" notices share their title and differ only in their
   * bodies, which tell conflicts, blocked merges and unknown states apart; none
   * of them reads like the failed-update notice.
   */
  lemma NotUpdatedNoticesDiffer(n: U64)
    ensures Title(NotUpdated(n, HasConflicts)) == Title(NotUpdated(n, IsBlocked)) == Title(NotUpdated(n, StatusUnknown))
    ensures Body(NotUpdated(n, HasConflicts)) != Body(NotUpdated(n, IsBlocked))
    ensures Body(NotUpdated(n, HasConflicts)) != Body(NotUpdated(n, StatusUnknown))
    ensures Body(NotUpdated(n, IsBlocked)) != Body(NotUpdated(n, StatusUnknown))
    ensures forall r :: Title(NotUpdated(n, r)) != Title(FailedUpdate)
  {
    assert ConflictsBody[3] == 'h' && BlockedBody[3] == 'i' && UnknownBody[3] == 's';
    assert NotUpdatedTitle(n)[0] == 'P' && FailedUpdateTitle[0] == 'F';
  }

  /** A row's dispatch shows the failed-update notice once, as its last effect, exactly when it ends the task. */
  lemma DispatchNotice(records: seq<PullRequestModel>, pr: PullRequestModel, status: PrStatus, updateOk: bool)
    ensures var d := DispatchOne(records, pr, status, updateOk);
      && multiset(d.effects)[FailedUpdateNotice] == (if d.ended then 1 else 0)
      && (d.ended ==> d.effects != [] && d.effects[|d.effects| - 1] == FailedUpdateNotice)
  {
  }

  /** The same for one visited row, fetch included. */
  lemma VisitNotice(records: seq<PullRequestModel>, pr: PullRequestModel, running: bool,
                    token: string, remote: (string, PullRequestModel) -> Fetch,
                    updateOk: (string, PullRequestModel) -> bool)
    ensures var v := VisitRow(records, pr, running, token, remote, updateOk);
      && multiset(v.effects)[FailedUpdateNotice] == (if running && v.ended then 1 else 0)
      && (running && v.ended ==> v.effects[|v.effects| - 1] == FailedUpdateNotice)
  {
    if running {
      var d := DispatchOne(records, pr, Classify(remote(token, pr)), updateOk(token, pr));
      DispatchNotice(records, pr, Classify(remote(token, pr)), updateOk(token, pr));
      NoticeAfter([FetchStatus(pr.prNumber)], d.effects);
    }
  }

  /** Effects without the notice in front of `b` change neither its notice count nor, when `b` is not empty, its last effect. */
  lemma NoticeAfter(a: seq<Effect>, b: seq<Effect>)
    requires multiset(a)[FailedUpdateNotice] == 0
    ensures multiset(a + b)[FailedUpdateNotice] == multiset(b)[FailedUpdateNotice]
    ensures b != [] ==> (a + b)[|a + b| - 1] == b[|b| - 1]
  {
    assert multiset(a + b) == multiset(a) + multiset(b);
  }

  /**
   * Whatever the remote answers, at most one `Failed to update PR` notice is
   * shown in a pass, it is the pass's last effect, and the task does not live on.
   */
  lemma {:induction false} FailedUpdateEndsTask(records: seq<PullRequestModel>, pending: seq<PullRequestModel>,
                                                running: bool, token: string,
                                                remote: (string, PullRequestModel) -> Fetch,
                                                updateOk: (string, PullRequestModel) -> bool)
    ensures var r := ScanFrom(records, pending, running, token, remote, updateOk);
      && multiset(r.effects)[FailedUpdateNotice] <= 1
      && (multiset(r.effects)[FailedUpdateNotice] == 1 ==>
            r.effects[|r.effects| - 1] == FailedUpdateNotice && !r.alive)
      && (FailedUpdateNotice in r.effects ==> multiset(r.effects)[FailedUpdateNotice] == 1)
    decreases |pending|
  {
    if pending != [] {
      var v := VisitRow(records, pending[0], running, token, remote, updateOk);
      VisitNotice(records, pending[0], running, token, remote, updateOk);
      if !v.ended {
        var rest := ScanFrom(v.records, pending[1..], running, token, remote, updateOk);
        FailedUpdateEndsTask(v.records, pending[1..], running, token, remote, updateOk);
        NoticeAfter(v.effects, rest.effects);
      }
    }
  }
}
