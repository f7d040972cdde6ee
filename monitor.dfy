/**
 * `AppState`: the two tables, the `running` flag and the live scan tasks,
 * updated in place by the commands and by the scan task. `log` records what
 * the engine has done to the outside world. Each mutating method is specified
 * by the matching transition of `Engine`, whose properties are proved there.
 */
module Monitor {
  import opened Wrappers
  import opened Decimal
  import opened PrTypes
  import opened Classifier
  import opened PrUrl
  import opened PrDetails
  import opened RecordStore
  import opened Scan
  import opened Engine

  const ParseError: string := "Failed to parse PR"
  const NoTokenError: string := "There is no token, can't check pr details"

  class AppState {
    var records: seq<PullRequestModel>
    var tokens: seq<string>
    var running: bool
    var loops: seq<string>
    var log: seq<Effect>

    /** The state as a value of the engine model. */
    function Model(): EngineState
      reads this
    {
      EngineState(records, tokens, running, loops, log)
    }

    /** `AppState::new` on a database that already holds these tables; the flag starts cleared. */
    constructor (records: seq<PullRequestModel>, tokens: seq<string>)
      ensures Model() == EngineState(records, tokens, false, [], [])
    {
      this.records := records;
      this.tokens := tokens;
      running := false;
      loops := [];
      log := [];
    }

    /** `AppState::get_token`: the last stored token, if any. */
    method GetToken() returns (t: Option<string>)
      ensures t == LastToken(tokens)
    {
      if tokens == [] {
        t := None;
      } else {
        t := Some(tokens[|tokens| - 1]);
      }
    }

    /** The `has_token` command: whether the token table has a row. */
    method HasToken() returns (b: bool)
      ensures b <==> |tokens| > 0
    {
      b := |tokens| > 0;
    }

    /** The `add_token` command: the table then holds exactly `t`. */
    method AddToken(t: string)
      modifies this
      ensures Model() == Engine.AddToken(old(Model()), t)
      ensures tokens == [t]
    {
      tokens := [];
      tokens := tokens + [t];
    }

    /** `AppState::get_all_prs`: every row, open or not, in table order. */
    method GetAllPrs() returns (prs: seq<PullRequestModel>)
      ensures prs == records
    {
      prs := [];
      for i := 0 to |records|
        invariant prs == records[..i]
      {
        prs := prs + [records[i]];
      }
    }

    /** The scan query of the task: the rows stored as open, in table order. */
    method LoadOpenRecords() returns (prs: seq<PullRequestModel>)
      ensures prs == OpenRecords(records)
    {
      prs := [];
      for i := 0 to |records|
        invariant prs == OpenRecords(records[..i])
      {
        assert records[..i + 1][..i] == records[..i];
        if IsOpen(records[i]) {
          prs := prs + [records[i]];
        }
      }
      assert records[..|records|] == records;
    }

    /** `AppState::add_item`: refuses a number already stored, else appends the row. */
    method AddItem(pr: PullRequestModel) returns (r: Result<(), string>)
      modifies this
      ensures Model() == Engine.AddItem(old(Model()), pr)
      ensures r.Err? <==> HasNumber(old(records), pr.prNumber)
      ensures r.Err? ==> r.error == DuplicateError
    {
      var count := CountWithNumber(records, pr.prNumber);
      if count > 0 {
        return Err(DuplicateError);
      }
      records := records + [pr];
      r := Ok(());
    }

    /** `AppState::start_monitor`, the token read and the spawn taken as one step. */
    method StartMonitor()
      modifies this
      ensures Model() == Start(old(Model()))
    {
      if running {
        return;
      }
      running := true;
      var token := GetToken();
      if token.None? {
        return;
      }
      loops := loops + [token.value];
    }

    /** `AppState::stop_monitor`. */
    method StopMonitor()
      modifies this
      ensures Model() == Stop(old(Model()))
    {
      running := false;
    }

    /** The `match pr_status` arms for one fetched row. */
    method Dispatch(pr: PullRequestModel, status: PrStatus, updated: bool) returns (ended: bool)
      modifies this
      ensures var d := DispatchOne(old(records), pr, status, updated);
        records == d.records && log == old(log) + d.effects && ended == d.ended
      ensures running == old(running) && tokens == old(tokens) && loops == old(loops)
    {
      ended := false;
      match status
      case Merged =>
        records := CloseByNumber(records, pr.prNumber);
        log := log + [PrClosed(pr.prNumber)];
      case UpToDate =>
      case Behind =>
        log := log + [UpdateBranch(pr.prNumber)];
        if !updated {
          log := log + [FailedUpdateNotice];
          ended := true;
        }
      case Conflicts =>
        log := log + [Notify(NotUpdated(pr.prNumber, HasConflicts))];
      case Blocked =>
        log := log + [Notify(NotUpdated(pr.prNumber, IsBlocked))];
      case Unknown =>
        log := log + [Notify(NotUpdated(pr.prNumber, StatusUnknown))];
    }

    /** One row of the pass: fetch its status, check the flag, dispatch. */
    method Visit(token: string, pr: PullRequestModel, remote: (string, PullRequestModel) -> Fetch,
                 updateOk: (string, PullRequestModel) -> bool) returns (ended: bool)
      modifies this
      ensures var v := VisitRow(old(records), pr, old(running), token, remote, updateOk);
        records == v.records && log == old(log) + v.effects && ended == v.ended
      ensures running == old(running) && tokens == old(tokens) && loops == old(loops)
    {
      var status := Classify(remote(token, pr));
      log := log + [FetchStatus(pr.prNumber)];
      if !running {
        return true;
      }
      ghost var d := DispatchOne(records, pr, status, updateOk(token, pr));
      ended := Dispatch(pr, status, updateOk(token, pr));
      AppendAssoc(old(log), [FetchStatus(pr.prNumber)], d.effects);
    }

    /**
     * The body of one pass with the token `token` over the open rows `pending`,
     * row by row; `alive` is false when a failed branch update returned from
     * the task or the flag was found cleared.
     */
    method ScanPass(token: string, pending: seq<PullRequestModel>,
                    remote: (string, PullRequestModel) -> Fetch,
                    updateOk: (string, PullRequestModel) -> bool) returns (alive: bool)
      modifies this
      ensures var total := ScanFrom(old(records), pending, old(running), token, remote, updateOk);
        records == total.records && log == old(log) + total.effects && alive == total.alive
      ensures running == old(running) && tokens == old(tokens) && loops == old(loops)
    {
      ghost var log0 := log;
      ghost var total := ScanFrom(records, pending, running, token, remote, updateOk);
      ghost var done: seq<Effect> := [];
      for i := 0 to |pending|
        invariant running == old(running) && tokens == old(tokens) && loops == old(loops)
        invariant log == log0 + done
        invariant Remaining(records, pending, i, running, token, remote, updateOk, done, total)
      {
        ghost var v := VisitRow(records, pending[i], running, token, remote, updateOk);
        RemainingStep(records, pending, i, running, token, remote, updateOk, done, total);
        var ended := Visit(token, pending[i], remote, updateOk);
        AppendAssoc(log0, done, v.effects);
        done := done + v.effects;
        if ended {
          return false;
        }
      }
      alive := running;
    }

    /**
     * One iteration of the spawned task `k`: load the open rows, run the pass
     * with the task's token, and drop the task when the pass ends it.
     */
    method RunCycle(k: nat, remote: (string, PullRequestModel) -> Fetch,
                    updateOk: (string, PullRequestModel) -> bool)
      requires k < |loops|
      modifies this
      ensures Model() == Cycle(old(Model()), k, remote, updateOk)
    {
      var token := loops[k];
      var pending := LoadOpenRecords();
      var alive := ScanPass(token, pending, remote, updateOk);
      if !alive {
        loops := RemoveAt(loops, k);
      }
    }

    /**
     * The `add_item` command: parse the link, require a token, build the row
     * from the client's answer `fetch`, store it and return every row.
     */
    method AddPullRequest(url: string, fetch: Fetch, formatDate: Timestamp -> string)
      returns (r: Result<seq<PullRequestModel>, string>)
      requires IsAscii(url)
      requires ParseGithubPrUrl(url).Some? && tokens != [] ==> Value(ParseGithubPrUrl(url).value.2) < U64_LIMIT
      modifies this
      ensures tokens == old(tokens) && running == old(running) && loops == old(loops) && log == old(log)
      ensures r.Ok? ==> r.value == records
      ensures ParseGithubPrUrl(url).None? ==> r == Err(ParseError) && records == old(records)
      ensures ParseGithubPrUrl(url).Some? && old(tokens) == [] ==> r == Err(NoTokenError) && records == old(records)
      ensures ParseGithubPrUrl(url).Some? && old(tokens) != [] ==>
        var c := ParseGithubPrUrl(url).value;
        match GetPrDetails(c.0, c.1, c.2, fetch, formatDate)
        case Err(msg) => r == Err(msg) && records == old(records)
        case Ok(row) => records == (if AddRow(old(records), row).Ok? then old(records) + [row] else old(records))
                        && (r.Err? <==> HasNumber(old(records), row.prNumber))
                        && (r.Err? ==> r.error == DuplicateError)
    {
      var parsed := ParseGithubPrUrl(url);
      if parsed.None? {
        return Err(ParseError);
      }
      var (owner, repo, number) := parsed.value;
      var token := GetToken();
      if token.None? {
        return Err(NoTokenError);
      }
      var details := GetPrDetails(owner, repo, number, fetch, formatDate);
      if details.Err? {
        return Err(details.error);
      }
      var added := AddItem(details.value);
      if added.Err? {
        return Err(added.error);
      }
      var all := GetAllPrs();
      r := Ok(all);
    }
  }
}
