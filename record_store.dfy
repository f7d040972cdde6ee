/**
 * The two SQLite tables the engine uses, as sequences of rows in insertion
 * order: `pull_request` and `token`, and the queries and statements run on them.
 */
module RecordStore {
  import opened Wrappers
  import opened Decimal
  import opened PrTypes

  const DuplicateError: string := "Pull request already exists"

  /** Stored with `state = 'open'`: the rows the scan query selects. */
  predicate IsOpen(row: PullRequestModel) {
    row.state == "open"
  }

  function AsClosed(row: PullRequestModel): PullRequestModel {
    row.(state := "closed")
  }

  /** The scan query `... FROM pull_request where state = 'open'`, in table order. */
  function OpenRecords(records: seq<PullRequestModel>): (r: seq<PullRequestModel>)
    ensures |r| <= |records|
    ensures forall x :: x in r ==> x in records && IsOpen(x)
    ensures forall x :: x in records && IsOpen(x) ==> x in r
  {
    if records == [] then []
    else
      var last := records[|records| - 1];
      OpenRecords(records[..|records| - 1]) + (if IsOpen(last) then [last] else [])
  }

  /** The scan query yields each open row as often as the table holds it, and no other row. */
  lemma {:induction false} OpenRecordsCounts(records: seq<PullRequestModel>)
    ensures forall x :: multiset(OpenRecords(records))[x] == if IsOpen(x) then multiset(records)[x] else 0
  {
    if records != [] {
      var init := records[..|records| - 1];
      var last := records[|records| - 1];
      assert records == init + [last];
      OpenRecordsCounts(init);
    }
  }

  /** `SELECT count(id) FROM pull_request WHERE pr_number = ?`. */
  function CountWithNumber(records: seq<PullRequestModel>, n: U64): (c: nat)
    ensures c <= |records|
    ensures c > 0 <==> exists i :: 0 <= i < |records| && records[i].prNumber == n
  {
    if records == [] then 0
    else
      var last := records[|records| - 1];
      CountWithNumber(records[..|records| - 1], n) + (if last.prNumber == n then 1 else 0)
  }

  predicate HasNumber(records: seq<PullRequestModel>, n: U64) {
    exists i :: 0 <= i < |records| && records[i].prNumber == n
  }

  /** No two rows share a pull-request number. */
  predicate UniqueNumbers(records: seq<PullRequestModel>) {
    forall i, j :: 0 <= i < j < |records| ==> records[i].prNumber != records[j].prNumber
  }

  /**
   * `AppState::add_item`: the duplicate check looks at the number only, not at
   * owner or repository; otherwise the row is appended.
   */
  function AddRow(records: seq<PullRequestModel>, pr: PullRequestModel): (r: Result<seq<PullRequestModel>, string>)
    ensures r.Err? <==> HasNumber(records, pr.prNumber)
    ensures r.Err? ==> r.error == DuplicateError
    ensures r.Ok? ==> r.value == records + [pr]
  {
    if CountWithNumber(records, pr.prNumber) > 0 then Err(DuplicateError) else Ok(records + [pr])
  }

  /** Whatever `add_item` does, no two rows end up sharing a number. */
  lemma AddRowKeepsNumbersUnique(records: seq<PullRequestModel>, pr: PullRequestModel)
    requires UniqueNumbers(records)
    ensures AddRow(records, pr).Ok? ==> UniqueNumbers(AddRow(records, pr).value)
  {
  }

  /** `UPDATE pull_request SET state = 'closed' WHERE pr_number = ?`. */
  function CloseByNumber(records: seq<PullRequestModel>, n: U64): (r: seq<PullRequestModel>)
    ensures |r| == |records|
    ensures forall i :: 0 <= i < |r| ==>
      r[i] == if records[i].prNumber == n then AsClosed(records[i]) else records[i]
  {
    seq(|records|, i requires 0 <= i < |records| =>
      if records[i].prNumber == n then AsClosed(records[i]) else records[i])
  }

  /** After the update, no row with that number is selected by the scan query. */
  lemma ClosedNumberNotScanned(records: seq<PullRequestModel>, n: U64)
    ensures forall x :: x in OpenRecords(CloseByNumber(records, n)) ==> x.prNumber != n
  {
    var r := CloseByNumber(records, n);
    forall x | x in OpenRecords(r) ensures x.prNumber != n {
      var i :| 0 <= i < |r| && r[i] == x;
    }
  }

  /** The scan query never yields two rows with the same number when the table has none. */
  lemma {:induction false} OpenRecordsUnique(records: seq<PullRequestModel>)
    requires UniqueNumbers(records)
    ensures UniqueNumbers(OpenRecords(records))
  {
    if records != [] {
      var init := records[..|records| - 1];
      var last := records[|records| - 1];
      assert UniqueNumbers(init);
      OpenRecordsUnique(init);
      var o := OpenRecords(init);
      forall x | x in o ensures x.prNumber != last.prNumber {
        var i :| 0 <= i < |init| && init[i] == x;
        assert records[i] == x;
      }
    }
  }

  /** `get_token`: the last row of the token table, if any. */
  function LastToken(tokens: seq<string>): (t: Option<string>)
    ensures t.Some? <==> tokens != []
    ensures t.Some? ==> t.value in tokens
    ensures t.Some? ==> t.value == tokens[|tokens| - 1]
  {
    if tokens == [] then None else Some(tokens[|tokens| - 1])
  }

  /** `add_token`: delete every token, then insert the new one. */
  function ReplaceToken(tokens: seq<string>, t: string): (r: seq<string>)
    ensures |r| == 1 && t in r
  {
    [t]
  }

  /** After `add_token(t)` the table holds exactly `t`, `get_token` gives `t` and `has_token` is true. */
  lemma TokenAfterReplace(tokens: seq<string>, t: string)
    ensures ReplaceToken(tokens, t) == [t]
    ensures LastToken(ReplaceToken(tokens, t)) == Some(t)
    ensures |ReplaceToken(tokens, t)| > 0
  {
  }
}
