/**
 * The monitor as a state machine. Its actions are `start_monitor`,
 * `stop_monitor`, one pass of a live scan task, `add_item` and `add_token`;
 * each is atomic here. A pass holds the `running` lock from the moment it
 * takes it until it sleeps, and start and stop take the same lock, so a pass
 * never interleaves with them.
 */
module Engine {
  import opened Wrappers
  import opened Decimal
  import opened PrTypes
  import opened Classifier
  import opened RecordStore
  import opened Scan

  /**
   * `records` and `tokens` are the two tables, `running` the flag, `loops`
   * the live scan tasks (each holds the token it captured when spawned) and
   * `log` everything done to the outside world so far.
   */
  datatype EngineState = EngineState(
    records: seq<PullRequestModel>,
    tokens: seq<string>,
    running: bool,
    loops: seq<string>,
    log: seq<Effect>)

  const Initial: EngineState := EngineState([], [], false, [], [])

  /** `start_monitor`: a no-op when running; otherwise sets the flag and spawns a task only if a token is stored. */
  function Start(e: EngineState): EngineState {
    if e.running then e
    else
      var spawned := match LastToken(e.tokens) case Some(t) => [t] case None => [];
      e.(running := true, loops := e.loops + spawned)
  }

  /** `stop_monitor`. */
  function Stop(e: EngineState): EngineState {
    e.(running := false)
  }

  function RemoveAt<T>(s: seq<T>, k: nat): (r: seq<T>)
    requires k < |s|
    ensures |r| == |s| - 1
  {
    s[..k] + s[k + 1..]
  }

  /** One pass of live task `k` over the rows that are open when it starts. */
  function Cycle(e: EngineState, k: nat, remote: (string, PullRequestModel) -> Fetch,
                 updateOk: (string, PullRequestModel) -> bool): EngineState
    requires k < |e.loops|
  {
    AfterPass(e, k, ScanFrom(e.records, OpenRecords(e.records), e.running, e.loops[k], remote, updateOk))
  }

  /** The state once task `k` has made a pass with outcome `r`: the task is dropped when the pass ended it. */
  function AfterPass(e: EngineState, k: nat, r: ScanEnd): EngineState
    requires k < |e.loops|
  {
    e.(records := r.records,
       loops := if r.alive then e.loops else RemoveAt(e.loops, k),
       log := e.log + r.effects)
  }

  /** `AppState::add_item` on the engine: the table changes only on success. */
  function AddItem(e: EngineState, pr: PullRequestModel): EngineState {
    match AddRow(e.records, pr)
    case Ok(rows) => e.(records := rows)
    case Err(_) => e
  }

  /** The `add_token` command. */
  function AddToken(e: EngineState, t: string): EngineState {
    e.(tokens := ReplaceToken(e.tokens, t))
  }

  datatype Action =
    | StartMonitor
    | StopMonitor
    | RunCycle(k: nat, remote: (string, PullRequestModel) -> Fetch, updateOk: (string, PullRequestModel) -> bool)
    | AddPr(pr: PullRequestModel)
    | SetToken(t: string)

  /** One action; a pass of a task that is not live does nothing. */
  function Step(e: EngineState, a: Action): EngineState {
    match a
    case StartMonitor => Start(e)
    case StopMonitor => Stop(e)
    case RunCycle(k, remote, updateOk) => if k < |e.loops| then Cycle(e, k, remote, updateOk) else e
    case AddPr(pr) => AddItem(e, pr)
    case SetToken(t) => AddToken(e, t)
  }

  /** The actions in order, each on the state the previous one left. */
  function Run(e: EngineState, acts: seq<Action>): EngineState
    decreases |acts|
  {
    if acts == [] then e else Run(Step(e, acts[0]), acts[1..])
  }

  // ---------------------------------------------------------------- start and stop

  /** Starting twice is starting once. */
  lemma StartIsIdempotent(e: EngineState)
    ensures Start(Start(e)) == Start(e)
  {
  }

  /** With the flag already set, `start_monitor` changes nothing and spawns no task. */
  lemma StartWhileRunningIsNoOp(e: EngineState)
    requires e.running
    ensures Start(e) == e
  {
  }

  /**
   * From a cleared flag, `start_monitor` sets it and spawns one task, holding
   * the stored token, exactly when a token is stored; nothing else changes.
   */
  lemma StartFromStopped(e: EngineState)
    requires !e.running
    ensures Start(e).running
    ensures e.tokens == [] ==> Start(e).loops == e.loops
    ensures e.tokens != [] ==> Start(e).loops == e.loops + [e.tokens[|e.tokens| - 1]]
    ensures Start(e).records == e.records && Start(e).tokens == e.tokens && Start(e).log == e.log
  {
  }

  /** `stop_monitor` clears the flag and touches nothing else. */
  lemma StopOnlyClearsFlag(e: EngineState)
    ensures !Stop(e).running
    ensures Stop(e).records == e.records && Stop(e).tokens == e.tokens
    ensures Stop(e).loops == e.loops && Stop(e).log == e.log
  {
  }

  /**
   * Without a token, `start_monitor` leaves the flag set and no task running,
   * and from then on every `start_monitor` is a no-op until a stop.
   */
  lemma StartWithoutTokenStalls(e: EngineState, t: string)
    requires !e.running && e.tokens == []
    ensures Start(e).running && Start(e).loops == e.loops
    ensures Start(AddToken(Start(e), t)) == AddToken(Start(e), t)
  {
  }

  /**
   * Stop then start while a task sleeps leaves two live tasks: single flight
   * does not survive a restart.
   */
  lemma RestartWhileSleepingGivesTwoTasks(e: EngineState)
    requires e.running && |e.loops| == 1 && e.tokens != []
    ensures |Start(Stop(e)).loops| == 2
  {
  }

  // ---------------------------------------------------------------- one pass

  /** A pass never changes the flag or the token table, and only appends to the log. */
  lemma CycleKeepsFlagAndTokens(e: EngineState, k: nat, remote: (string, PullRequestModel) -> Fetch,
                                updateOk: (string, PullRequestModel) -> bool)
    requires k < |e.loops|
    ensures var e' := Cycle(e, k, remote, updateOk);
      e'.running == e.running && e'.tokens == e.tokens && e'.log[..|e.log|] == e.log
  {
  }

  /**
   * A pass that finds the flag cleared (stop ran before the pass took the
   * lock) fetches at most the first open row, dispatches nothing and ends the
   * task.
   */
  lemma StoppedCycle(e: EngineState, k: nat, remote: (string, PullRequestModel) -> Fetch,
                     updateOk: (string, PullRequestModel) -> bool)
    requires k < |e.loops| && !e.running
    ensures var e' := Cycle(e, k, remote, updateOk);
      var open := OpenRecords(e.records);
      && e'.records == e.records
      && e'.log == e.log + (if open == [] then [] else [FetchStatus(open[0].prNumber)])
      && e'.loops == RemoveAt(e.loops, k)
  {
    StoppedPassDispatchesNothing(e.records, OpenRecords(e.records), e.loops[k], remote, updateOk);
  }

  /**
   * A failed branch update shows one notice, ends the task and leaves the flag
   * set, so `start_monitor` stays a no-op: monitoring is over until a stop.
   */
  lemma FailedUpdateEndsMonitoring(e: EngineState, k: nat, remote: (string, PullRequestModel) -> Fetch,
                                   updateOk: (string, PullRequestModel) -> bool)
    requires k < |e.loops| && e.running
    requires FailedUpdateNotice in Cycle(e, k, remote, updateOk).log[|e.log|..]
    ensures var e' := Cycle(e, k, remote, updateOk);
      && e'.running
      && e'.loops == RemoveAt(e.loops, k)
      && multiset(e'.log[|e.log|..])[FailedUpdateNotice] == 1
      && e'.log[|e'.log| - 1] == FailedUpdateNotice
      && Start(e') == e'
  {
    var r := ScanFrom(e.records, OpenRecords(e.records), e.running, e.loops[k], remote, updateOk);
    assert Cycle(e, k, remote, updateOk) == AfterPass(e, k, r);
    FailedUpdateEndsTask(e.records, OpenRecords(e.records), e.running, e.loops[k], remote, updateOk);
    FailedPassEndsMonitoring(e, k, r);
  }

  /** The engine side of the above, for any pass outcome `r` that showed the notice last and ended the task. */
  lemma FailedPassEndsMonitoring(e: EngineState, k: nat, r: ScanEnd)
    requires k < |e.loops| && e.running
    requires FailedUpdateNotice in r.effects ==> multiset(r.effects)[FailedUpdateNotice] == 1
    requires multiset(r.effects)[FailedUpdateNotice] == 1 ==>
      r.effects[|r.effects| - 1] == FailedUpdateNotice && !r.alive
    requires FailedUpdateNotice in AfterPass(e, k, r).log[|e.log|..]
    ensures var e' := AfterPass(e, k, r);
      && e'.running
      && e'.loops == RemoveAt(e.loops, k)
      && multiset(e'.log[|e.log|..])[FailedUpdateNotice] == 1
      && e'.log[|e'.log| - 1] == FailedUpdateNotice
      && Start(e') == e'
  {
    LogSuffix(e.log, r.effects);
  }

  /** A pass's new state in terms of the pass's outcome. */
  lemma CycleParts(e: EngineState, k: nat, remote: (string, PullRequestModel) -> Fetch,
                   updateOk: (string, PullRequestModel) -> bool)
    requires k < |e.loops|
    ensures var r := ScanFrom(e.records, OpenRecords(e.records), e.running, e.loops[k], remote, updateOk);
      Cycle(e, k, remote, updateOk) ==
        e.(records := r.records, loops := if r.alive then e.loops else RemoveAt(e.loops, k),
           log := e.log + r.effects)
  {
  }

  /** A log grown by `b`: its part after `a` is `b`, and its last entry is `b`'s. */
  lemma LogSuffix(a: seq<Effect>, b: seq<Effect>)
    ensures (a + b)[|a|..] == b
    ensures b != [] ==> (a + b)[|a + b| - 1] == b[|b| - 1]
  {
  }

  lemma {:induction false} MergedCountPositive(pending: seq<PullRequestModel>, pr: PullRequestModel, token: string,
                                               remote: (string, PullRequestModel) -> Fetch)
    requires pr in pending && Classify(remote(token, pr)) == Merged
    ensures MergedCount(pending, pr.prNumber, token, remote) >= 1
    decreases |pending|
  {
    if pending[0] != pr {
      MergedCountPositive(pending[1..], pr, token, remote);
    }
  }

  /**
   * In a pass with the flag set and no failed update, an open row classified
   * Merged gets exactly one `pr-closed` event, every row with its number is
   * closed, and no later pass selects it.
   */
  lemma MergedIsClosedOnce(e: EngineState, k: nat, remote: (string, PullRequestModel) -> Fetch,
                           updateOk: (string, PullRequestModel) -> bool, pr: PullRequestModel)
    requires k < |e.loops| && e.running && UniqueNumbers(e.records)
    requires UpdatesSucceed(OpenRecords(e.records), e.loops[k], remote, updateOk)
    requires pr in OpenRecords(e.records) && Classify(remote(e.loops[k], pr)) == Merged
    ensures var e' := Cycle(e, k, remote, updateOk);
      && e'.loops == e.loops
      && multiset(e'.log)[PrClosed(pr.prNumber)] == multiset(e.log)[PrClosed(pr.prNumber)] + 1
      && (forall x :: x in e'.records && x.prNumber == pr.prNumber ==> x.state == "closed")
      && (forall x :: x in OpenRecords(e'.records) ==> x.prNumber != pr.prNumber)
  {
    var open := OpenRecords(e.records);
    var token := e.loops[k];
    var n := pr.prNumber;
    var r := ScanFrom(e.records, open, true, token, remote, updateOk);
    FullPass(e.records, open, token, remote, updateOk, n);
    MergedCountPositive(open, pr, token, remote);
    OpenRecordsUnique(e.records);
    MergedCountAtMostNumberCount(open, n, token, remote);
    UniqueNumberCount(open, n);
    var e' := Cycle(e, k, remote, updateOk);
    CycleParts(e, k, remote, updateOk);
    CountAppend(e.log, r.effects, PrClosed(n));
    ScanOnlyCloses(e.records, open, true, token, remote, updateOk);
    AllWithNumberClosed(e.records, r.records, n);
  }

  /** Rows only closed, and every row numbered `n` closed: no open row numbered `n` is left. */
  lemma AllWithNumberClosed(before: seq<PullRequestModel>, after: seq<PullRequestModel>, n: U64)
    requires |after| == |before|
    requires forall i :: 0 <= i < |before| ==> SameOrClosed(before[i], after[i])
    requires forall i :: 0 <= i < |before| && before[i].prNumber == n ==> after[i] == AsClosed(before[i])
    ensures forall x :: x in after && x.prNumber == n ==> x.state == "closed"
  {
    forall x | x in after && x.prNumber == n ensures x.state == "closed" {
      var i :| 0 <= i < |after| && after[i] == x;
      assert SameOrClosed(before[i], x);
    }
  }

  // ---------------------------------------------------------------- invariants over runs

  /** No action lets two rows share a number. */
  lemma StepKeepsNumbersUnique(e: EngineState, a: Action)
    requires UniqueNumbers(e.records)
    ensures UniqueNumbers(Step(e, a).records)
  {
    match a
    case AddPr(pr) => AddRowKeepsNumbersUnique(e.records, pr);
    case RunCycle(k, remote, updateOk) =>
      if k < |e.loops| {
        var r := ScanFrom(e.records, OpenRecords(e.records), e.running, e.loops[k], remote, updateOk);
        ScanOnlyCloses(e.records, OpenRecords(e.records), e.running, e.loops[k], remote, updateOk);
        assert forall i :: 0 <= i < |e.records| ==> r.records[i].prNumber == e.records[i].prNumber by {
          forall i | 0 <= i < |e.records| ensures r.records[i].prNumber == e.records[i].prNumber {
            assert SameOrClosed(e.records[i], r.records[i]);
          }
        }
      }
    case _ =>
  }

  lemma {:induction false} RunKeepsNumbersUnique(e: EngineState, acts: seq<Action>)
    requires UniqueNumbers(e.records)
    ensures UniqueNumbers(Run(e, acts).records)
    decreases |acts|
  {
    if acts != [] {
      StepKeepsNumbersUnique(e, acts[0]);
      RunKeepsNumbersUnique(Step(e, acts[0]), acts[1..]);
    }
  }

  /** Some row carries number `n`, and none with that number is open. */
  predicate ClosedNumber(records: seq<PullRequestModel>, n: U64) {
    && HasNumber(records, n)
    && forall i :: 0 <= i < |records| && records[i].prNumber == n ==> !IsOpen(records[i])
  }

  lemma StepKeepsClosed(e: EngineState, a: Action, n: U64)
    requires ClosedNumber(e.records, n)
    ensures ClosedNumber(Step(e, a).records, n)
  {
    match a
    case RunCycle(k, remote, updateOk) =>
      if k < |e.loops| {
        var r := ScanFrom(e.records, OpenRecords(e.records), e.running, e.loops[k], remote, updateOk);
        ScanOnlyCloses(e.records, OpenRecords(e.records), e.running, e.loops[k], remote, updateOk);
        forall i | 0 <= i < |e.records| ensures r.records[i].prNumber == e.records[i].prNumber
          && (r.records[i].prNumber == n ==> !IsOpen(r.records[i]))
        {
          assert SameOrClosed(e.records[i], r.records[i]);
        }
      }
    case AddPr(pr) =>
      var after := AddRow(e.records, pr);
      if after.Ok? {
        assert pr.prNumber != n;
        assert forall i :: 0 <= i < |e.records| ==> after.value[i] == e.records[i];
      }
    case _ =>
  }

  /**
   * Once every row with a number is closed, it stays so whatever happens next:
   * passes only close rows and `add_item` refuses a number already stored, so
   * no later pass selects, fetches or dispatches that pull request again.
   */
  lemma {:induction false} ClosedStaysClosed(e: EngineState, acts: seq<Action>, n: U64)
    requires ClosedNumber(e.records, n)
    ensures ClosedNumber(Run(e, acts).records, n)
    ensures forall x :: x in OpenRecords(Run(e, acts).records) ==> x.prNumber != n
    decreases |acts|
  {
    if acts != [] {
      StepKeepsClosed(e, acts[0], n);
      ClosedStaysClosed(Step(e, acts[0]), acts[1..], n);
    } else {
      forall x | x in OpenRecords(e.records) ensures x.prNumber != n {
        var i :| 0 <= i < |e.records| && e.records[i] == x;
      }
    }
  }

  predicate NoStop(acts: seq<Action>) {
    forall i :: 0 <= i < |acts| ==> !acts[i].StopMonitor?
  }

  /**
   * Single flight holds as long as nobody stops the monitor: starting can add
   * at most one task, and only when the flag was clear to begin with.
   */
  lemma {:induction false} SingleFlightWithoutStop(e: EngineState, acts: seq<Action>)
    requires NoStop(acts)
    ensures |Run(e, acts).loops| <= |e.loops| + (if e.running then 0 else 1)
    ensures e.running ==> Run(e, acts).running
    decreases |acts|
  {
    if acts != [] {
      var e1 := Step(e, acts[0]);
      assert NoStop(acts[1..]) by {
        forall i | 0 <= i < |acts[1..]| ensures !acts[1..][i].StopMonitor? {
          assert acts[1..][i] == acts[i + 1];
        }
      }
      assert !acts[0].StopMonitor?;
      assert e.running ==> e1.running;
      assert e1.running ==> |e1.loops| <= |e.loops| + (if e.running then 0 else 1);
      assert !e1.running ==> |e1.loops| <= |e.loops|;
      SingleFlightWithoutStop(e1, acts[1..]);
    }
  }
}
