# FlightDeck process supervisor, modelled in Dafny

FlightDeck's backend (`backend/app.py`) starts, stops and reports a fixed
set of applications, each a script run as a child process. It keeps one
table, `running_processes`, from app id to child-process handle, and works
on it against the registry `APPS` that is loaded once at startup:

- `get_app` finds the first descriptor with a given id;
- `format_status` builds the status snapshot, one entry per descriptor in
  registry order, with `running` and `pid` taken from a live handle;
- `start_app` answers 404 for an unknown id, does nothing for an app that
  is still running, and otherwise launches the script, records the handle
  and broadcasts `status_update`;
- `stop_app` drops a stale entry and answers "Already stopped" when no live
  process is recorded; otherwise it signals the process group, waits up to
  5 seconds, kills the process if the wait timed out, removes the entry and
  broadcasts;
- `stop_process_group` sends `SIGTERM` to the group on POSIX (`os.killpg`)
  or `CTRL_BREAK_EVENT` on Windows, and falls back to `terminate()` under
  fixed rules;
- `cleanup_processes`, run at exit and on `SIGINT`/`SIGTERM`, stops every
  running process and empties the table.

The model is five modules, one file each:

- `Registry` (`registry.dfy`): app descriptors, the lookup `Find` and the
  search loop `GetApp`.
- `Os` (`os_calls.dfy`): the OS abstracted. A signalling call is answered
  `Delivered`, `NoSuchProcess` (Python's `ProcessLookupError`) or `Failed`
  (any other exception); `wait(timeout=5)` is answered `Exited` or
  `TimedOut`; a launch is `Spawned(pid)` or `SpawnFailed`. These answers are
  inputs of the operations. `StopProcessGroup` and `Termination` give the
  calls a stop makes, in order, and whether an exception escapes.
- `Status` (`status.dfy`): a handle is `Proc(pid, alive)`, where `alive` is
  what `poll()` would observe; the snapshot specification `Snapshot` and
  its lemmas.
- `Supervision` (`supervisor.dfy`): class `Supervisor` owning the table as
  a `map<string, Proc>` field. It also logs every OS call in `calls` and
  every broadcast snapshot in `broadcasts`. Its invariant `Valid()` says
  every key of the table is a registry id. `Start`, `Stop`, `Cleanup` and
  `CleanupEntry` change the table in place. `FormatStatus` reads it.
  `Exit` is the OS event of a child exiting on its own, after which
  `poll()` reports it finished.
- `Scenarios` (`scenarios.dfy`): client methods that chain operations.

Exceptions follow Python's semantics. An exception raised inside an
`except` clause is not caught by the clauses beside it. In
`stop_process_group` this gives different escape paths per platform. On
POSIX, when `os.killpg` fails with an error other than
`ProcessLookupError`, `terminate()` is the fallback, and its failure
escapes. On nt, any rejection of `CTRL_BREAK_EVENT` leads to
`terminate()` inside the outer `try`. If that call raises
`ProcessLookupError`, the outer handler swallows it. If it raises anything
else, the outer handler calls `terminate()` a second time, and only the
failure of that second call escapes. A failing `kill()` after a timed-out
wait also escapes. When an exception escapes, `stop_app` fails (Flask
answers 500) with the entry still recorded and nothing broadcast, and
`cleanup_processes` stops at that entry, which stays in the table together
with the entries not yet visited. The model keeps these paths
(`StopFailed`, `Cleanup` returning `false`). When nothing escapes, the
table ends empty.

## Model

| member | source | states |
|---|---|---|
| Registry.Find | backend/app.py:33-37 | lookup succeeds exactly for ids of the registry, and what it returns is a registry descriptor with that id |
| Registry.FindIsFirst | backend/app.py:33-37 | with duplicate ids, the lookup returns the earliest descriptor in registry order |
| Registry.GetApp | backend/app.py:33-37 | the search loop with early return computes the lookup `Find` |
| Os.GroupSignal | backend/app.py:79-85 | the graceful signal is `killpg` of the group on POSIX and `CTRL_BREAK_EVENT` on nt, addressed to the process's pid |
| Os.StopProcessGroup | backend/app.py:77-89 | the first call is the platform's group signal (`killpg` on POSIX, `CTRL_BREAK_EVENT` on nt). `terminate()` is issued exactly when POSIX's group signal fails with an error other than `ProcessLookupError`, or nt's is rejected in any way. A delivered signal, or `ProcessLookupError` on POSIX, ends the stop with no fallback. On POSIX the fallback's failure is exactly what escapes. On nt a delivered fallback, or a `ProcessLookupError` from it, ends the stop after those two calls with nothing escaping; any other failure leads to a second `terminate()`, and the stop raises exactly when that one is not delivered. All calls go to the one process |
| Os.Termination | backend/app.py:137-141 | the calls of the group stop come first, unchanged, and at most two calls follow: one wait after a group stop that did not raise, and one kill after a wait that timed out, as the last call. The process is waited for exactly when the group stop did not raise. The stop raises exactly when the group stop raised or a needed kill failed. All calls target the one pid |
| Status.EntryOf | backend/app.py:45-53 | one snapshot entry copies the descriptor's id, name and url; `running` holds exactly when a live handle is recorded for the id; a pid is shown exactly when running, and it is that handle's pid |
| Status.Snapshot | backend/app.py:40-54 | the snapshot has one entry per registry descriptor |
| Status.SnapshotAt | backend/app.py:40-54 | entry `i` copies id, name and url of descriptor `i`; `running` holds iff a handle is recorded for that id and its process is alive; `pid` is that handle's pid when running and absent otherwise |
| Status.NotRunningWithoutLiveHandle | backend/app.py:50-51 | an app with no live handle is never reported running and shows no pid |
| Status.RunningWithLiveHandle | backend/app.py:50-51 | an app with a live handle is reported running with that handle's pid |
| Status.PurgeKeepsSnapshot | backend/app.py:133-135 | dropping a stale (dead) entry leaves the snapshot unchanged |
| Supervision.Visit | backend/app.py:94-99 | one entry of the cleanup: an exited process gets no call and cannot raise; every call goes to the entry's process; a running one whose stop did not raise was waited for, and killed exactly when its wait timed out |
| Supervision.Supervisor.constructor | backend/app.py:22 | the supervisor starts with an empty table, no OS calls and no broadcasts, and satisfies its invariant |
| Supervision.Supervisor.FormatStatus | backend/app.py:40-54 | the loop builds exactly the snapshot `Snapshot` of the registry and the current table |
| Supervision.Supervisor.Start | backend/app.py:113-127 | keeps the invariant. Unknown id: `NotFound` (404), with table, calls and broadcasts unchanged. Live app: `AlreadyRunning` with the snapshot, and nothing launched, recorded or broadcast. Otherwise exactly one `Spawn` of the descriptor's script. On success: the table is the old one with only `id` mapped to the new live handle, replacing a stale one; one broadcast of the new snapshot; `Started`. On spawn failure: table and broadcasts unchanged |
| Supervision.Supervisor.Stop | backend/app.py:130-145 | keeps the invariant. No live handle: the entry is removed and every other entry is unchanged; no OS call, no broadcast; `AlreadyStopped` with the snapshot. Live handle: the calls are exactly the termination sequence, with kill only after a timed-out wait. If it completes, `id` is removed with all other entries unchanged, one broadcast is made, and the result is `Stopped`. If an exception escapes, the table and broadcasts are unchanged |
| Supervision.Supervisor.Cleanup | backend/app.py:92-100 | keeps the invariant and never adds or changes entries. Each recorded entry is visited at most once, and the calls made are exactly the stop sequences of the visited entries, in visiting order (none for an entry whose process has exited). It completes exactly when no visited stop raised: a completed cleanup has visited every entry, none of whose stops raised, and left the table empty; every process that was running got the group signal and a wait, and a kill if its wait timed out. Only processes that were running are addressed. With nothing running it makes no call and completes. If it stops early, the last visited entry's stop raised and no earlier one did, and that entry and every unvisited one stay recorded |
| Supervision.Supervisor.CleanupEntry | backend/app.py:93-100 | one pass of the cleanup loop: the process is stopped only if running; the entry is dropped unless that stop raised |
| Supervision.Supervisor.Exit | backend/app.py:133 | the OS event that makes `poll()` report a recorded process finished: only that handle's liveness changes |
| Scenarios.StartTwiceLaunchesOnce | backend/app.py:119-124 | two starts launch one process: the second answers `AlreadyRunning` and the recorded pid is the first one |
| Scenarios.StopTwice | backend/app.py:132-145 | the calls after the first stop are the old ones plus the termination sequence when a live handle was recorded, and nothing otherwise. After a stop that did not fail, no entry remains. A second stop answers `AlreadyStopped`, makes no OS call, and its snapshot shows the app not running |
| Scenarios.CleanupTwice | backend/app.py:92-105 | the first cleanup only appends calls, all addressed to processes that were running. After a completed cleanup, a second one completes, makes no OS call and leaves the table empty |
| Scenarios.UnknownIdChangesNothing | backend/app.py:115-117 | for an id outside the registry, start answers `NotFound` and stop `AlreadyStopped`; table, OS calls and broadcasts are unchanged |
| Scenarios.StartSingleApp | backend/app.py:113-127 | with the registry holding one app `a` on POSIX: the first start records a live handle and answers running with the pid; the second answers "Already running" with the same pid; an unknown id answers not found; exactly one launch was made |
| Scenarios.SingleApp | backend/app.py:113-145 | with the registry holding one app `a`: start gives running with the pid, and a second start gives "Already running" with the same pid. An unknown id gives not found. Stop gives not running, and the status shows no pid. There is one launch, and a kill exactly when the wait timed out |

## Left out

- HTTP and Socket.IO transport (`backend/app.py:17-19`, `108-111`, `148-164`): routes, JSON encoding, status codes and the per-client `emit` on connect and on `request_status` are delivery. Results are datatypes, and a broadcast is recorded as the snapshot it carries.
- Launch details (`start_subprocess`, `backend/app.py:57-74`): path resolution, `os.setsid` / `CREATE_NEW_PROCESS_GROUP`, the interpreter path and output redirection are foreign calls. A launch is an input, `Spawned(pid)` or `SpawnFailed`, and the model records the script it was asked to run.
- Real signals and the 5-second clock: `os.killpg`, `send_signal`, `terminate`, `wait` and `kill` are recorded calls whose outcomes are inputs. Exceptions from `wait` other than `TimeoutExpired` are not modelled.
- Config loading (`load_apps`, `backend/app.py:25-30`): file I/O. The registry is a constructor argument, and descriptors are assumed to carry every field.
- Registration of the cleanup with `atexit` and `signal.signal` (`backend/app.py:103-105`), and eventlet scheduling: runtime hooks and concurrency. Operations run one at a time.
- The two `poll()` calls of `format_status` (`backend/app.py:50-51`) are one observation in the model: the race between them is not captured.
- A child exiting on its own (`Exit`) happens only between operations, so each operation sees one liveness state per process. A child that dies during an operation is not captured. For example, the `poll()` in `format_status` just after `Popen` (`backend/app.py:125`) could already see it finished, while `Start` always reports the new process running in its `Started` snapshot.
- Cleanup's iteration order follows the dict's insertion order; the model lets the table pick any order.
- `frontend/src/App.jsx` (UI) and `homepage/server.py` (a stock static file server) carry no supervisor logic.
