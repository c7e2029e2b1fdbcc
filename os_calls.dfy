/** The operating system as the supervisor sees it. Every call into the OS
    (spawn, group signal, terminate, wait, kill) is recorded as an `OsCall`,
    and the OS's answer to each is an input: which of the possible outcomes
    happens is not under the supervisor's control. */
module Os {

  /** The branch taken on `os.name == "nt"`. */
  datatype Platform = Posix | Nt

  /** How the OS answers one signalling call: it is delivered, the process
      is already gone (`ProcessLookupError`), or it fails otherwise (any
      other exception). */
  datatype Attempt = Delivered | NoSuchProcess | Failed

  /** The answer of `proc.wait(timeout=5)`. */
  datatype WaitOutcome = Exited | TimedOut

  /** The answer of `start_subprocess`: a new child with its pid, or an
      exception from `Popen`. */
  datatype Launch = Spawned(pid: int) | SpawnFailed

  /** The OS's answers for one graceful-then-forced stop of a live process:
      to the group signal, to the first `terminate()` fallback, to the
      second `terminate()` (only reachable on the nt branch), to the wait
      and to `kill()`. */
  datatype Answers = Answers(group: Attempt, terminate: Attempt, retry: Attempt, wait: WaitOutcome, kill: Attempt)

  /** One call into the OS. */
  datatype OsCall =
    | Spawn(script: string)
    | KillGroup(pid: int)  // os.killpg(pid, SIGTERM)
    | CtrlBreak(pid: int)  // proc.send_signal(CTRL_BREAK_EVENT)
    | Terminate(pid: int)  // proc.terminate()
    | Wait(pid: int)       // proc.wait(timeout=5)
    | Kill(pid: int)       // proc.kill()

  /** What a stop does: the calls it makes, in order, and whether an
      exception escaped from it. */
  datatype Effect = Effect(calls: seq<OsCall>, raised: bool)

  /** The graceful group signal of each platform. */
  function GroupSignal(platform: Platform, pid: int): (c: OsCall)
    ensures platform == Posix ==> c == KillGroup(pid)
    ensures platform == Nt ==> c == CtrlBreak(pid)
  {
    match platform
    case Posix => KillGroup(pid)
    case Nt => CtrlBreak(pid)
  }

  predicate IsSignal(c: OsCall) {
    c.KillGroup? || c.CtrlBreak? || c.Terminate?
  }

  /** Every call in `calls` is addressed to the process `pid`. */
  predicate AimedAt(calls: seq<OsCall>, pid: int) {
    forall c | c in calls :: !c.Spawn? && c.pid == pid
  }

  /** `stop_process_group`: signal the process group, and fall back to
      `terminate()` where the exception handlers say so. An exception raised
      inside a handler is not caught by the handlers beside it. On POSIX a
      failing fallback therefore escapes. On nt the fallback runs inside the
      outer `try`: a `ProcessLookupError` from it is swallowed, any other
      error leads to a second `terminate()`, and only that second call's
      failure escapes. */
  function StopProcessGroup(platform: Platform, pid: int, a: Answers): (e: Effect)
    ensures |e.calls| >= 1 && e.calls[0] == GroupSignal(platform, pid)
    ensures AimedAt(e.calls, pid) && forall c | c in e.calls :: IsSignal(c)
    // The fallback: POSIX falls back only on an error other than "no such
    // process"; nt falls back on any rejection of CTRL_BREAK.
    ensures Terminate(pid) in e.calls <==> (if platform == Posix then a.group == Failed else a.group != Delivered)
    // A delivered group signal, and "no such process" on POSIX, end the stop at once.
    ensures a.group == Delivered || (platform == Posix && a.group == NoSuchProcess) ==> e == Effect([GroupSignal(platform, pid)], false)
    // Only a failing fallback lets an exception escape.
    ensures e.raised ==> Terminate(pid) in e.calls && a.terminate != Delivered
    // POSIX: the one fallback's failure escapes.
    ensures platform == Posix && a.group == Failed ==> (e.raised <==> a.terminate != Delivered)
    // nt: a delivered fallback ends the stop, and "no such process" from it
    // is swallowed by the outer handler.
    ensures platform == Nt && a.group != Delivered && a.terminate != Failed ==>
      e == Effect([CtrlBreak(pid), Terminate(pid)], false)
    // nt: any other failure of the fallback leads to a second `terminate()`,
    // and only the failure of that one escapes.
    ensures platform == Nt && a.group != Delivered && a.terminate == Failed ==>
      e.calls == [CtrlBreak(pid), Terminate(pid), Terminate(pid)] && (e.raised <==> a.retry != Delivered)
    ensures platform == Posix ==> |e.calls| <= 2
    ensures |e.calls| <= 3
  {
    match platform
    case Posix =>
      if a.group != Failed then Effect([KillGroup(pid)], false)
      else Effect([KillGroup(pid), Terminate(pid)], a.terminate != Delivered)
    case Nt =>
      if a.group == Delivered then Effect([CtrlBreak(pid)], false)
      else if a.terminate != Failed then Effect([CtrlBreak(pid), Terminate(pid)], false)
      else Effect([CtrlBreak(pid), Terminate(pid), Terminate(pid)], a.retry != Delivered)
  }

  /** The whole stop of one live process, shared by `stop_app` and
      `cleanup_processes`: signal the group, wait up to the grace period,
      and kill only if the wait timed out. */
  function Termination(platform: Platform, pid: int, a: Answers): (e: Effect)
    ensures AimedAt(e.calls, pid)
    ensures |e.calls| >= 1 && e.calls[0] == GroupSignal(platform, pid)
    // The calls of the group stop come first, unchanged.
    ensures var g := StopProcessGroup(platform, pid, a).calls; |g| <= |e.calls| && e.calls[..|g|] == g
    // Nothing else is called: one wait after a group stop that did not
    // raise, and one kill after a wait that timed out.
    ensures var g := StopProcessGroup(platform, pid, a);
      |e.calls| == |g.calls| + (if g.raised then 0 else if a.wait == TimedOut then 2 else 1)
    // The process is waited for exactly when the group stop returned normally.
    ensures Wait(pid) in e.calls <==> !StopProcessGroup(platform, pid, a).raised
    // `kill` is issued only after a wait that timed out.
    ensures Kill(pid) in e.calls <==> Wait(pid) in e.calls && a.wait == TimedOut
    ensures Kill(pid) in e.calls ==> e.calls[|e.calls| - 1] == Kill(pid) && e.calls[|e.calls| - 2] == Wait(pid)
    ensures e.raised <==> StopProcessGroup(platform, pid, a).raised || (a.wait == TimedOut && a.kill != Delivered)
  {
    var g := StopProcessGroup(platform, pid, a);
    if g.raised then g
    else match a.wait
    case Exited =>
      AfterSignals(g.calls, [Wait(pid)], pid);
      Effect(g.calls + [Wait(pid)], false)
    case TimedOut =>
      var tail := [Wait(pid), Kill(pid)];
      AfterSignals(g.calls, tail, pid);
      assert Kill(pid) in tail;
      Effect(g.calls + tail, a.kill != Delivered)
  }

  /** Calls appended after a run of signals addressed to `pid` keep the run
      as a prefix, and a wait or a kill is found in the whole exactly when
      it is found in what was appended. */
  lemma AfterSignals(signals: seq<OsCall>, tail: seq<OsCall>, pid: int)
    requires AimedAt(signals, pid) && forall c | c in signals :: IsSignal(c)
    requires AimedAt(tail, pid)
    ensures AimedAt(signals + tail, pid)
    ensures (signals + tail)[..|signals|] == signals
    ensures Wait(pid) in signals + tail <==> Wait(pid) in tail
    ensures Kill(pid) in signals + tail <==> Kill(pid) in tail
  {
    assert !IsSignal(Wait(pid)) && !IsSignal(Kill(pid));
  }
}
