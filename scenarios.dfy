/** Sequences of supervisor operations, and what their contracts let a
    caller conclude: starting twice launches once, stopping and cleaning up
    are idempotent, unknown ids change nothing, and a stopped app is
    reported stopped. */
module Scenarios {
  import opened Registry
  import opened Os
  import opened Status
  import opened Supervision

  /** Two starts without a stop in between launch exactly one process; the
      second answers "Already running" with the same pid. */
  method StartTwiceLaunchesOnce(s: Supervisor, id: string, pid: int, later: Launch)
    returns (first: StartResult, second: StartResult)
    requires s.Valid() && id in Ids(s.apps) && !Live(s.table, id)
    modifies s
    ensures s.Valid()
    ensures first.Started? && second.AlreadyRunning?
    ensures s.table == old(s.table)[id := Proc(pid, true)]
    ensures |s.calls| == |old(s.calls)| + 1 && s.calls[|s.calls| - 1].Spawn?
    ensures |s.broadcasts| == |old(s.broadcasts)| + 1
  {
    first := s.Start(id, Spawned(pid));
    second := s.Start(id, later);
  }

  /** A stop that did not fail leaves no entry for the app, and a second
      stop answers "Already stopped" without signalling or broadcasting. */
  method StopTwice(s: Supervisor, id: string, a: Answers, b: Answers)
    returns (first: StopResult, second: StopResult, afterFirst: seq<OsCall>)
    requires s.Valid()
    modifies s
    ensures s.Valid()
    ensures afterFirst == old(s.calls) +
      (if old(Live(s.table, id)) then Termination(s.platform, old(s.table)[id].pid, a).calls else [])
    ensures first != StopFailed ==>
      && second.AlreadyStopped? && id !in s.table
      && s.calls == afterFirst
      && |second.status| == |s.apps|
      && forall i | 0 <= i < |s.apps| && s.apps[i].id == id :: !second.status[i].running
  {
    first := s.Stop(id, a);
    afterFirst := s.calls;
    second := s.Stop(id, b);
    if first != StopFailed {
      NotRunningWithoutLiveHandle(s.apps, s.table, id);
    }
  }

  /** Cleaning up twice, as the exit hook and a signal handler both may:
      after a completed first cleanup the table is empty, and the second
      makes no OS call and completes. */
  method CleanupTwice(s: Supervisor, answers: string -> Answers, again: string -> Answers)
    returns (first: bool, second: bool, afterFirst: seq<OsCall>)
    requires s.Valid()
    modifies s
    ensures s.Valid()
    ensures |old(s.calls)| <= |afterFirst| && afterFirst[..|old(s.calls)|] == old(s.calls)
    ensures AimedAtAny(afterFirst[|old(s.calls)|..], LivePids(old(s.table)))
    ensures first ==> second && s.table == map[] && s.calls == afterFirst
  {
    ghost var order;
    first, order := s.Cleanup(answers);
    afterFirst := s.calls;
    if first {
      assert LivePids(s.table) == {};
    }
    second, order := s.Cleanup(again);
  }

  /** An id the registry does not know: start answers "not found" and stop
      "already stopped", and neither touches the table, the OS or the
      clients. */
  method UnknownIdChangesNothing(s: Supervisor, id: string, launch: Launch, a: Answers)
    returns (started: StartResult, stopped: StopResult)
    requires s.Valid() && id !in Ids(s.apps)
    modifies s
    ensures started == NotFound && stopped.AlreadyStopped?
    ensures s.table == old(s.table) && s.calls == old(s.calls) && s.broadcasts == old(s.broadcasts)
  {
    started := s.Start(id, launch);
    assert id !in s.table;
    stopped := s.Stop(id, a);
    assert s.table - {id} == s.table;
  }

  /** The first half of `SingleApp`: a supervisor over the one app "a",
      started twice, then asked to start the unknown id "zzz". */
  method StartSingleApp(pid: int) returns (s: Supervisor, start1: StartResult, start2: StartResult, unknown: StartResult)
    ensures fresh(s) && s.Valid()
    ensures s.apps == [AppDescriptor("a", "App A", "http://localhost:8001", "a.py")] && s.platform == Posix
    ensures s.table == map["a" := Proc(pid, true)] && s.calls == [Spawn("a.py")]
    ensures start1 == Started([StatusEntry("a", "App A", "http://localhost:8001", true, Some(pid))])
    ensures start2 == AlreadyRunning([StatusEntry("a", "App A", "http://localhost:8001", true, Some(pid))])
    ensures unknown == NotFound
  {
    var app := AppDescriptor("a", "App A", "http://localhost:8001", "a.py");
    s := new Supervisor([app], Posix);
    assert Ids(s.apps) == {"a"};
    start1 := s.Start("a", Spawned(pid));
    start2 := s.Start("a", Spawned(pid + 1));
    unknown := s.Start("zzz", Spawned(pid + 2));
  }

  /** One registered app "a" and an unknown id "zzz": start, start again,
      stop (the process exits within the grace period or has to be killed),
      then read the status. */
  method SingleApp(pid: int, wait: WaitOutcome)
    returns (start1: StartResult, start2: StartResult, unknown: StartResult, stop: StopResult,
             status: seq<StatusEntry>, calls: seq<OsCall>)
    ensures start1 == Started([StatusEntry("a", "App A", "http://localhost:8001", true, Some(pid))])
    ensures start2 == AlreadyRunning([StatusEntry("a", "App A", "http://localhost:8001", true, Some(pid))])
    ensures unknown == NotFound
    ensures stop == Stopped([StatusEntry("a", "App A", "http://localhost:8001", false, None)])
    ensures status == [StatusEntry("a", "App A", "http://localhost:8001", false, None)]
    // One launch only, and a kill exactly when the process outlived the grace period.
    ensures |calls| >= 1 && calls[0] == Spawn("a.py") && Spawn("a.py") !in calls[1..]
    ensures Kill(pid) in calls <==> wait == TimedOut
  {
    var s;
    s, start1, start2, unknown := StartSingleApp(pid);
    stop := s.Stop("a", Answers(Delivered, Delivered, Delivered, wait, Delivered));
    status := s.FormatStatus();
    calls := s.calls;
  }
}
