# pr-monitor: a Dafny model of the monitoring engine

pr-monitor is a desktop tray application. It keeps a list of GitHub pull
requests in SQLite. It also runs a background task that wakes every five
minutes and asks GitHub about each open pull request. Depending on the
answer, the task:

- marks a merged pull request closed and emits a `pr-closed` event;
- asks GitHub to update a branch that is behind;
- shows a notification for conflicts, blocked merges and unknown states.

A failed branch update also shows a notification and ends the task.

This project models that engine from `src-tauri/src/lib.rs`, in ten modules,
one per file:

| module | file | what it holds |
|---|---|---|
| `Wrappers` | wrappers.dfy | `Option` and `Result` |
| `Decimal` | decimal.dfy | digit strings, `u64`, printing and reading numbers |
| `PrTypes` | pr_types.dfy | the stored row and the GitHub client's answer, as values |
| `Classifier` | classifier.dfy | `needs_update_pr` as a total function of the client's answer |
| `PrUrl` | pr_url.dfy | `parse_github_pr_url` as a leftmost-start search, and the UI's inverse `buildUrlFromPr` |
| `PrDetails` | pr_details.dfy | the row `get_pr_details` builds |
| `RecordStore` | record_store.dfy | the `pull_request` and `token` tables as sequences, with their queries and statements |
| `Scan` | scan.dfy | one pass of the spawned task over the open rows, with its effects |
| `Engine` | engine.dfy | the whole app as a state machine of atomic actions, and properties of runs |
| `Monitor` | monitor.dfy | `AppState` as a class whose methods update the tables, the flag, the live tasks and the effect log in place |

The methods of `Monitor.AppState` carry the loops and in-place updates of the
source. The mutating methods are specified by a transition of `Engine` or
`Scan`. The queries are specified by `RecordStore` functions, and
`AddPullRequest` by `ParseGithubPrUrl`, `GetPrDetails` and `AddRow`. The
properties are proved about those functions.

The GitHub client's answers are parameters:

- `remote(token, row)` is what the client returns when `needs_update_pr` asks about a row;
- `updateOk(token, row)` says whether `update_pr_branch` succeeds;
- `fetch` is the answer `get_pr_details` receives.

Everything the engine does to the outside world is appended to an effect log:
fetches, `pr-closed` events, branch updates and notifications.

The source holds the `running` lock for a whole pass, from taking it before
the scan query until it is dropped before the sleep. `start_monitor` and
`stop_monitor` take the same lock, so a pass is atomic with respect to them.
The model treats start, stop, one pass of a live task, `add_item` and
`add_token` as atomic actions, and interleaves them freely (`Engine.Run`).
`add_item` and `add_token` take only the database lock; "## Left out" says
what treating them as atomic leaves aside.

Behaviour of the code worth knowing, all of it modelled:

- The duplicate check of `add_item` compares the pull-request number only. The same number under another owner or repository is refused.
- `start_monitor` without a stored token leaves `running` set and spawns no task. Every later start is then a no-op until a stop.
- Notifications are shown unconditionally. The backend has no setting that turns them off.
- A failed branch update returns from the task. The task is gone, but `running` stays set.
- Stop followed by start while a task sleeps leaves two live tasks.
- A stop cannot interrupt a pass. The flag check after each fetch can only see a stop that happened before the pass took the lock: during the previous sleep, or between the spawn and the first pass. In that case one more row is fetched and not dispatched.

## Model

| member | source | states |
|---|---|---|
| Decimal.Digits | src/App.jsx:128-129 | a number prints as a non-empty digit string that starts with '0' only for zero |
| Decimal.ValueOfDigits | src-tauri/src/lib.rs:34 | reading back the printed digits of a number gives the number |
| Classifier.Classify | src-tauri/src/lib.rs:86-123 | for each of Merged, Behind, UpToDate, Conflicts and Blocked: the status holds exactly when the fetch succeeded and shows that case; merged wins over any signal |
| Classifier.MergedWins | src-tauri/src/lib.rs:91-94 | a pull request with `merged_at` is Merged whatever its mergeable state |
| Classifier.UnknownIsTheFallback | src-tauri/src/lib.rs:96-122 | Unknown exactly for a failed build or request, an absent state, or the states unknown, unstable, draft, has-hooks and any unmapped one |
| PrUrl.FindFrom | src-tauri/src/lib.rs:241-242 | a search from position i finds captures that the pattern matches at some position ≥ i; finding nothing means no attempt from i on succeeds |
| PrUrl.FindFromLeftmost | src-tauri/src/lib.rs:242 | the search from i answers with the attempt at the first position ≥ i where an attempt succeeds |
| PrUrl.LeftmostMatch | src-tauri/src/lib.rs:242 | the search's answer matches at a position before which the pattern matches nowhere |
| PrUrl.MatchAtSound | src-tauri/src/lib.rs:241 | the single-position matcher only answers with captures the pattern really matches there |
| PrUrl.MatchAtComplete | src-tauri/src/lib.rs:241 | if the pattern matches at a position, the single-position matcher finds exactly those captures (owner and repo are maximal non-'/' runs, the number is the maximal digit run) |
| PrUrl.NoMatchAnywhere | src-tauri/src/lib.rs:242-249 | a failed search means no position and no captures match |
| PrUrl.ParseGithubPrUrl | src-tauri/src/lib.rs:240-250 | `None` exactly when the pattern matches nowhere; `Some` captures are well formed (non-empty, no '/', digits) and matched at the leftmost position where the pattern matches |
| PrUrl.ParseBuildUrl | src-tauri/src/lib.rs:240-250 | parsing `https://github.com/o/r/pull/n` gives back exactly (o, r, n) for well-formed parts |
| PrUrl.ParseBuildUrlFromPr | src/App.jsx:128-129 | the UI's link for a stored row with a number of at most 2^53 parses back to its owner, repository and number |
| PrDetails.StateName | src-tauri/src/lib.rs:50-57 | "open" exactly for Open, "closed" exactly for Closed, "" otherwise |
| PrDetails.GetPrDetails | src-tauri/src/lib.rs:28-75 | a row exactly when the pull request was fetched with a mergeable state, else "Can't load pr details"; the row carries the given owner, repo and parsed number, the fetched URL, the state named by `StateName`, the title or "", and the formatted close time or "" |
| RecordStore.OpenRecords | src-tauri/src/lib.rs:326-361 | the scan query yields exactly the stored rows whose state is "open" |
| RecordStore.OpenRecordsCounts | src-tauri/src/lib.rs:331 | the scan query yields each stored row whose state is "open" as often as the table holds it, and no other row |
| RecordStore.CountWithNumber | src-tauri/src/lib.rs:461-470 | the count is positive exactly when some row has the number |
| RecordStore.AddRow | src-tauri/src/lib.rs:458-491 | refuses with "Pull request already exists" exactly when a row has the same number (any owner or repo), else appends the row |
| RecordStore.AddRowKeepsNumbersUnique | src-tauri/src/lib.rs:458-491 | adding a row never lets two rows share a number |
| RecordStore.CloseByNumber | src-tauri/src/lib.rs:380-385 | every row with the number becomes closed, every other row is unchanged, the length is kept |
| RecordStore.ClosedNumberNotScanned | src-tauri/src/lib.rs:381-384 | after the update the scan query yields no row with that number |
| RecordStore.OpenRecordsUnique | src-tauri/src/lib.rs:331 | the scan query never yields two rows with one number when the table has none |
| RecordStore.LastToken | src-tauri/src/lib.rs:290-299 | `get_token` is the last row of the token table, or none when the table is empty |
| RecordStore.ReplaceToken | src-tauri/src/lib.rs:190-199 | after `add_token` the table holds one token, the new one |
| RecordStore.TokenAfterReplace | src-tauri/src/lib.rs:175-199 | after `add_token(t)` the table is [t], `get_token` gives t and `has_token` is true |
| Scan.DispatchOne | src-tauri/src/lib.rs:376-440 | Merged closes the number and emits one `pr-closed`; UpToDate does nothing; Behind requests an update and, on failure, shows the failed-update notice and ends the task; Conflicts, Blocked and Unknown show one "PR Not Updated: N" notice, each with its own body ("PR has conflicts…", "PR is blocked…", "PR status is unknown…") |
| Scan.NotUpdatedNoticesDiffer | src-tauri/src/lib.rs:400-436 | the three "PR Not Updated: N" notices share their title and have pairwise different bodies; none has the failed-update title |
| Scan.DispatchNotice | src-tauri/src/lib.rs:391-405 | one dispatch shows the failed-update notice at most once, as its last effect, exactly when it ends the task |
| Scan.VisitNotice | src-tauri/src/lib.rs:362-405 | the same for a visited row, fetch and flag check included |
| Scan.ScanFrom | src-tauri/src/lib.rs:362-445 | a pass lets the task live on only if the flag is set |
| Scan.ScanOnlyCloses | src-tauri/src/lib.rs:362-441 | a pass adds, drops and reorders no row, and each row ends as it was or closed |
| Scan.StoppedPassDispatchesNothing | src-tauri/src/lib.rs:362-374 | with the flag cleared a pass fetches only the first open row, changes nothing and ends the task |
| Scan.VisitWithoutFailure | src-tauri/src/lib.rs:362-406 | a visit with the flag set and no failed update does not end the task; it emits `pr-closed(n)` once when the row has number n and is Merged, otherwise not, and closes the row's number only when Merged |
| Scan.FullPass | src-tauri/src/lib.rs:362-445 | a pass with the flag set and no failed update keeps the task, emits one `pr-closed` per Merged row of a number, and closes the rows of a number exactly when a Merged row has it |
| Scan.UniqueNumberCount | src-tauri/src/lib.rs:458-473 | in a table without repeated numbers a number occurs at most once, and once exactly when present |
| Scan.MergedCountAtMostNumberCount | src-tauri/src/lib.rs:376-387 | a number is reported merged no more often than rows carry it |
| Scan.FailedUpdateEndsTask | src-tauri/src/lib.rs:391-405 | a pass shows the failed-update notice at most once; when shown it is the last effect and the task ends |
| Engine.StartIsIdempotent | src-tauri/src/lib.rs:301-320 | starting twice is starting once |
| Engine.StartWhileRunningIsNoOp | src-tauri/src/lib.rs:304-308 | with the flag set `start_monitor` changes nothing and spawns nothing |
| Engine.StartFromStopped | src-tauri/src/lib.rs:309-320 | from a cleared flag, start sets it and spawns one task holding the last token exactly when a token is stored; nothing else changes |
| Engine.StopOnlyClearsFlag | src-tauri/src/lib.rs:453-456 | stop clears the flag and touches nothing else |
| Engine.StartWithoutTokenStalls | src-tauri/src/lib.rs:309-319 | a tokenless start leaves the flag set with no task, and a later start is a no-op even after any token is added |
| Engine.RestartWhileSleepingGivesTwoTasks | src-tauri/src/lib.rs:442-456 | stop then start while one task sleeps leaves two live tasks |
| Engine.CycleKeepsFlagAndTokens | src-tauri/src/lib.rs:324-448 | a pass never changes the flag or the tokens and only appends to the log |
| Engine.StoppedCycle | src-tauri/src/lib.rs:371-374 | a pass after a stop fetches at most the first open row, dispatches nothing and ends the task |
| Engine.FailedUpdateEndsMonitoring | src-tauri/src/lib.rs:391-405 | a failed update shows exactly one notice, last; it ends the task with the flag still set, so start stays a no-op |
| Engine.MergedIsClosedOnce | src-tauri/src/lib.rs:376-387 | in a pass with the flag set and no failed update, an open Merged row gets exactly one `pr-closed`, every row with its number is closed, and no later scan query yields it |
| Engine.StepKeepsNumbersUnique | src-tauri/src/lib.rs:458-491 | no action lets two rows share a number |
| Engine.RunKeepsNumbersUnique | src-tauri/src/lib.rs:458-491 | unique numbers hold after any sequence of actions |
| Engine.StepKeepsClosed | src-tauri/src/lib.rs:380-385 | an action keeps a number whose rows are all closed that way |
| Engine.ClosedStaysClosed | src-tauri/src/lib.rs:326-385 | once every row of a number is closed it stays so after any actions, and no scan query yields it again |
| Engine.SingleFlightWithoutStop | src-tauri/src/lib.rs:301-320 | without a stop, starts add at most one task in total, and only if the flag was clear |
| Monitor.AppState.constructor | src-tauri/src/lib.rs:258-288 | the app starts with the given tables, the flag cleared, no task and no effects |
| Monitor.AppState.GetToken | src-tauri/src/lib.rs:290-299 | returns the last stored token, or none |
| Monitor.AppState.HasToken | src-tauri/src/lib.rs:174-188 | true exactly when the token table has a row |
| Monitor.AppState.AddToken | src-tauri/src/lib.rs:190-199 | the token table becomes exactly [t]; nothing else changes |
| Monitor.AppState.GetAllPrs | src-tauri/src/lib.rs:492-525 | returns every row in table order |
| Monitor.AppState.LoadOpenRecords | src-tauri/src/lib.rs:326-361 | returns the open rows in table order |
| Monitor.AppState.AddItem | src-tauri/src/lib.rs:458-491 | refuses a stored number with "Pull request already exists", else appends the row; the new state is the engine's `AddItem` |
| Monitor.AppState.StartMonitor | src-tauri/src/lib.rs:301-320 | the new state is the engine's `Start` |
| Monitor.AppState.StopMonitor | src-tauri/src/lib.rs:453-456 | the new state is the engine's `Stop` |
| Monitor.AppState.Dispatch | src-tauri/src/lib.rs:376-440 | updates the table and the log as `DispatchOne` says, and reports whether the task returned |
| Monitor.AppState.Visit | src-tauri/src/lib.rs:362-440 | one row, fetch and flag check included, as `VisitRow` says |
| Monitor.AppState.ScanPass | src-tauri/src/lib.rs:362-445 | the `for` loop over the open rows ends in the state `ScanFrom` gives |
| Monitor.AppState.RunCycle | src-tauri/src/lib.rs:324-448 | one iteration of the task's loop takes the app to the engine's `Cycle`, removing the task when the pass ends it |
| Monitor.AppState.AddPullRequest | src-tauri/src/lib.rs:201-232 | "Failed to parse PR" for an unparsable link, the no-token error without a token, the load error from the fetch, the duplicate error; else the row is appended and every row returned |

## Left out

- The GitHub client (Octocrab) and its HTTP calls are not modelled. Its answers are parameters of the operations.
- `get_pr_details` receives the client's answer for the token. The token itself plays no further part.
- SQLite is not modelled. Row ids, table creation, the `unwrap_or` column defaults of the row readers and the panics of `unwrap` on database errors are all outside the model.
- Tokio is not modelled: spawning, the mutexes and the 300-second sleep. Tasks are interleaved as atomic actions instead.
- The window inside `start_monitor` between releasing the flag and spawning the task is not modelled. A start is one atomic step.
- Date formatting (chrono's "%d/%m/%Y %H:%M") is a function parameter.
- Tauri is not modelled: the notification and event plugins, the panics (`expect`/`unwrap`) when showing a notification or emitting an event fails, the tray, the window and logging.
- The `start_task`/`stop_task`/`get_pr_list` commands are not modelled separately. They only forward to the modelled methods.
- The `emit_event` command is not modelled. It only emits an `error-event` through Tauri and touches no modelled state.
- The React UI is not modelled. Only its link builder, `buildUrlFromPr`, is used, as the inverse of the parser.
- PrUrl.ParseGithubPrUrl: requires an ASCII URL. The model reads Rust's Unicode-aware `\d` as `[0-9]`.
- Monitor.AppState.AddPullRequest: requires an ASCII URL. It also requires that, when a token is stored, the parsed number fits in a `u64`. On that path the source panics on an oversized number (`parse().unwrap()` inside `get_pr_details`). Without a token the no-token error comes first, and the model covers that case for any number.
- PrDetails.GetPrDetails: requires a digit string below 2^64, for the same `unwrap`.
- PrUrl.ParseBuildUrlFromPr: requires a number of at most 2^53. The UI receives the number as a JavaScript number, so a larger one may be rounded. The link then carries another number and does not parse back to the stored one.
- `add_item` and `add_token` are not atomic in the source. They take only the database lock, which a pass releases between its statements and during its requests. So they can run in the middle of a pass, and `get_all_prs` can see a table that a pass has closed only in part. Treating them as atomic loses nothing for the tables' contents. `add_item` refuses any stored number, so a row added during a pass never carries a number that the pass's updates close.
