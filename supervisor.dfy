/** The process supervisor: the module-level table `running_processes` and
    the operations that change it (start, stop, cleanup), over the fixed
    registry. Every call into the OS is appended to `calls`, and every
    `status_update` broadcast to `broadcasts` with the snapshot it carries. */
module Supervision {
  import opened Registry
  import opened Os
  import opened Status

  /** The answer of a start request: 200 with "Started" or "Already running"
      and the snapshot, 404 "App not found", or the launch exception. */
  datatype StartResult =
    | Started(status: seq<StatusEntry>)
    | AlreadyRunning(status: seq<StatusEntry>)
    | NotFound
    | LaunchFailed

  /** The answer of a stop request: 200 with "Stopped" or "Already stopped"
      and the snapshot, or an exception that escaped the termination. */
  datatype StopResult =
    | Stopped(status: seq<StatusEntry>)
    | AlreadyStopped(status: seq<StatusEntry>)
    | StopFailed

  /** Every call in `calls` is addressed to one of the processes `pids`. */
  ghost predicate AimedAtAny(calls: seq<OsCall>, pids: set<int>) {
    forall c | c in calls :: !c.Spawn? && c.pid in pids
  }

  /** Every running process of `table` under one of the ids `done` has been
      sent the group signal and waited for, and killed if its wait timed out. */
  ghost predicate StopsIssued(calls: seq<OsCall>, platform: Platform, table: Table, done: set<string>, answers: string -> Answers) {
    forall id | id in done && id in table && table[id].alive ::
      && GroupSignal(platform, table[id].pid) in calls
      && Wait(table[id].pid) in calls
      && (answers(id).wait == TimedOut ==> Kill(table[id].pid) in calls)
  }

  /** The ids listed in `order`. */
  ghost function Elems(order: seq<string>): set<string> {
    set id | id in order
  }

  /** No id is listed twice. */
  ghost predicate Distinct(order: seq<string>) {
    forall i, j | 0 <= i < j < |order| :: order[i] != order[j]
  }

  /** What `cleanup_processes` does with one recorded handle: stop it if
      its process is running, and nothing otherwise. */
  function Visit(platform: Platform, proc: Proc, a: Answers): (e: Effect)
    ensures AimedAt(e.calls, proc.pid)
    // An exited process is left alone, and only a running one can raise.
    ensures e.calls == [] <==> !proc.alive
    ensures e.raised ==> proc.alive
    ensures proc.alive && !e.raised ==>
      && Wait(proc.pid) in e.calls
      && (Kill(proc.pid) in e.calls <==> a.wait == TimedOut)
  {
    if proc.alive then Termination(platform, proc.pid, a) else Effect([], false)
  }

  /** The calls made by visiting the entries of `table` in the order `order`. */
  ghost function VisitAll(platform: Platform, table: Table, order: seq<string>, answers: string -> Answers): seq<OsCall>
    requires Elems(order) <= table.Keys
    decreases |order|
  {
    if order == [] then []
    else
      var last := order[|order| - 1];
      VisitAll(platform, table, order[..|order| - 1], answers) + Visit(platform, table[last], answers(last)).calls
  }

  /** Visiting one more entry appends its calls. */
  lemma VisitAllSnoc(platform: Platform, table: Table, order: seq<string>, id: string, answers: string -> Answers)
    requires Elems(order) <= table.Keys && id in table
    ensures Elems(order + [id]) == Elems(order) + {id}
    ensures VisitAll(platform, table, order + [id], answers)
      == VisitAll(platform, table, order, answers) + Visit(platform, table[id], answers(id)).calls
  {
    assert (order + [id])[..|order|] == order;
  }

  /** The state of a cleanup part-way through: the entries `visited` so far,
      in that order, are gone from `before`, and what is left (`now`, keyed
      by `pending`) is unchanged. `issued` are exactly the calls of those
      visits; they are all addressed to processes that were running, and
      every running process already visited has been signalled, waited for
      and, on a timed-out wait, killed. */
  ghost predicate CleanupProgress(platform: Platform, before: Table, now: Table, pending: set<string>,
                                  visited: seq<string>, issued: seq<OsCall>, answers: string -> Answers) {
    && Elems(visited) <= before.Keys && Distinct(visited)
    && now.Keys == pending && pending == before.Keys - Elems(visited)
    && (forall id | id in now :: now[id] == before[id])
    && issued == VisitAll(platform, before, visited, answers)
    && AimedAtAny(issued, LivePids(before))
    && StopsIssued(issued, platform, before, Elems(visited), answers)
    && (LivePids(before) == {} ==> issued == [])
    && (forall i | 0 <= i < |visited| :: !Visit(platform, before[visited[i]], answers(visited[i])).raised)
  }

  /** Visiting the entry `id` appends its calls to those of the earlier
      visits and, when its stop does not raise, dropping it keeps the
      cleanup invariant. */
  lemma CleanupStep(platform: Platform, before: Table, now: Table, pending: set<string>,
                    visited: seq<string>, issued: seq<OsCall>, id: string, answers: string -> Answers)
    requires CleanupProgress(platform, before, now, pending, visited, issued, answers)
    requires id in pending
    ensures Elems(visited + [id]) <= before.Keys && Distinct(visited + [id])
    ensures VisitAll(platform, before, visited + [id], answers) == issued + Visit(platform, now[id], answers(id)).calls
    ensures !Visit(platform, now[id], answers(id)).raised ==>
      CleanupProgress(platform, before, now - {id}, pending - {id}, visited + [id],
                      issued + Visit(platform, now[id], answers(id)).calls, answers)
  {
    VisitAllSnoc(platform, before, visited, id, answers);
  }

  /** A cleanup that has visited every entry has emptied the table. */
  lemma CleanupFinished(platform: Platform, before: Table, now: Table,
                        visited: seq<string>, issued: seq<OsCall>, answers: string -> Answers)
    requires CleanupProgress(platform, before, now, {}, visited, issued, answers)
    ensures Elems(visited) == before.Keys && now == map[]
  {
  }

  /** A cleanup that ends at the entry `id` because its stop raised leaves
      that entry, still live, and the ones not yet visited recorded. */
  lemma CleanupAborted(platform: Platform, before: Table, now: Table, pending: set<string>,
                       visited: seq<string>, issued: seq<OsCall>, id: string, answers: string -> Answers)
    requires CleanupProgress(platform, before, now, pending, visited, issued, answers)
    requires id in pending
    ensures Visit(platform, now[id], answers(id)).raised ==>
      var order := visited + [id];
      && Visit(platform, before[order[|order| - 1]], answers(order[|order| - 1])).raised
      && now.Keys == before.Keys - Elems(order[..|order| - 1])
      && now[id].alive && Termination(platform, now[id].pid, answers(id)).raised
      && forall i | 0 <= i < |order| - 1 :: !Visit(platform, before[order[i]], answers(order[i])).raised
  {
    assert (visited + [id])[..|visited|] == visited;
  }

  /** The calls appended after `log` are `issued`. */
  lemma AppendedAfter<T>(log: seq<T>, issued: seq<T>)
    ensures (log + issued)[..|log|] == log && (log + issued)[|log|..] == issued
  {
  }

  /** Regrouping a concatenation, stated once so the cleanup loop does not
      have to rediscover it. */
  lemma AppendAssoc<T>(a: seq<T>, b: seq<T>, c: seq<T>)
    ensures a + (b + c) == (a + b) + c
  {
  }

  class Supervisor {
    const apps: seq<AppDescriptor>
    const platform: Platform
    var table: Table
    var calls: seq<OsCall>
    var broadcasts: seq<seq<StatusEntry>>

    /** Every recorded handle belongs to an app of the registry. */
    ghost predicate Valid()
      reads this
    {
      table.Keys <= Ids(apps)
    }

    constructor (apps: seq<AppDescriptor>, platform: Platform)
      ensures Valid()
      ensures this.apps == apps && this.platform == platform
      ensures table == map[] && calls == [] && broadcasts == []
    {
      this.apps := apps;
      this.platform := platform;
      table := map[];
      calls := [];
      broadcasts := [];
    }

    /** `format_status`: build the snapshot entry by entry. */
    method FormatStatus() returns (status: seq<StatusEntry>)
      ensures status == Snapshot(apps, table)
    {
      status := [];
      for i := 0 to |apps|
        invariant status == Snapshot(apps[..i], table)
      {
        var cfg := apps[i];
        var running := cfg.id in table && table[cfg.id].alive;
        var pid := if running then Some(table[cfg.id].pid) else None;
        status := status + [StatusEntry(cfg.id, cfg.name, cfg.url, running, pid)];
        assert apps[..i + 1][..i] == apps[..i];
      }
      assert apps[..|apps|] == apps;
    }

    /** `start_app`. An unknown id is refused and a live app left alone;
        otherwise the script is launched and, if that succeeds, its handle
        is recorded under the id (replacing a stale one) and broadcast. */
    method Start(id: string, launch: Launch) returns (res: StartResult)
      requires Valid()
      modifies this`table, this`calls, this`broadcasts
      ensures Valid()
      ensures id !in Ids(apps) ==>
        && res == NotFound
        && table == old(table) && calls == old(calls) && broadcasts == old(broadcasts)
      ensures id in Ids(apps) && old(Live(table, id)) ==>
        && res == AlreadyRunning(Snapshot(apps, table))
        && table == old(table) && calls == old(calls) && broadcasts == old(broadcasts)
      ensures id in Ids(apps) && !old(Live(table, id)) ==>
        && calls == old(calls) + [Spawn(Find(apps, id).value.script)]
        && match launch
           case SpawnFailed =>
             res == LaunchFailed && table == old(table) && broadcasts == old(broadcasts)
           case Spawned(pid) =>
             && table == old(table)[id := Proc(pid, true)]
             && res == Started(Snapshot(apps, table))
             && broadcasts == old(broadcasts) + [Snapshot(apps, table)]
    {
      var cfg := GetApp(apps, id);
      if cfg.None? {
        return NotFound;
      }
      if id in table && table[id].alive {
        var status := FormatStatus();
        return AlreadyRunning(status);
      }
      calls := calls + [Spawn(cfg.value.script)];
      match launch
      case SpawnFailed =>
        return LaunchFailed;
      case Spawned(pid) =>
        table := table[id := Proc(pid, true)];
        var status := FormatStatus();
        broadcasts := broadcasts + [status];
        return Started(status);
    }

    /** `stop_app`. Without a live handle, any stale entry is dropped and
        nothing is signalled; otherwise the process is stopped (group signal,
        wait, kill on timeout), its entry removed and the change broadcast.
        An exception escaping the termination leaves the table as it was. */
    method Stop(id: string, a: Answers) returns (res: StopResult)
      requires Valid()
      modifies this`table, this`calls, this`broadcasts
      ensures Valid()
      ensures !old(Live(table, id)) ==>
        && table == old(table) - {id}
        && res == AlreadyStopped(Snapshot(apps, table))
        && calls == old(calls) && broadcasts == old(broadcasts)
      ensures old(Live(table, id)) ==>
        var e := Termination(platform, old(table)[id].pid, a);
        && calls == old(calls) + e.calls
        && (e.raised ==> res == StopFailed && table == old(table) && broadcasts == old(broadcasts))
        && (!e.raised ==>
              && table == old(table) - {id}
              && res == Stopped(Snapshot(apps, table))
              && broadcasts == old(broadcasts) + [Snapshot(apps, table)])
    {
      if !(id in table && table[id].alive) {
        table := table - {id};
        var status := FormatStatus();
        return AlreadyStopped(status);
      }
      var proc := table[id];
      var e := Termination(platform, proc.pid, a);
      calls := calls + e.calls;
      if e.raised {
        return StopFailed;
      }
      table := table - {id};
      var status := FormatStatus();
      broadcasts := broadcasts + [status];
      return Stopped(status);
    }

    /** `cleanup_processes`: for every recorded handle, in an order the
        table chooses, stop it if it is still running, then drop it. An
        exception escaping one termination ends the cleanup there, with
        that entry and the ones not yet visited still recorded. The ghost
        `order` is the order in which entries were visited. */
    method Cleanup(answers: string -> Answers) returns (completed: bool, ghost order: seq<string>)
      requires Valid()
      modifies this`table, this`calls
      ensures Valid()
      ensures table.Keys <= old(table).Keys && forall id | id in table :: table[id] == old(table)[id]
      // Each recorded entry is visited at most once, and the calls made are
      // exactly those of the visits, in order.
      ensures Elems(order) <= old(table).Keys && Distinct(order)
      ensures calls == old(calls) + VisitAll(platform, old(table), order, answers)
      ensures completed ==> Elems(order) == old(table).Keys && table == map[]
      // It completes only when no visited stop raised.
      ensures completed ==> forall i | 0 <= i < |order| :: !Visit(platform, old(table)[order[i]], answers(order[i])).raised
      // An early end comes from the last visited entry, whose stop raised;
      // it and every entry not yet visited stay recorded.
      ensures !completed ==>
        && |order| > 0
        && Visit(platform, old(table)[order[|order| - 1]], answers(order[|order| - 1])).raised
        && table.Keys == old(table).Keys - Elems(order[..|order| - 1])
        && forall i | 0 <= i < |order| - 1 :: !Visit(platform, old(table)[order[i]], answers(order[i])).raised
      ensures !completed ==> exists id | id in table ::
        table[id].alive && Termination(platform, table[id].pid, answers(id)).raised
      // Only processes that were running are signalled, waited for or killed.
      ensures |old(calls)| <= |calls| && calls[..|old(calls)|] == old(calls)
      ensures AimedAtAny(calls[|old(calls)|..], LivePids(old(table)))
      // A completed cleanup has signalled and waited for every running
      // process, and killed each one whose wait timed out.
      ensures completed ==> StopsIssued(calls[|old(calls)|..], platform, old(table), old(table).Keys, answers)
      // With nothing running, cleanup makes no call and cannot fail.
      ensures LivePids(old(table)) == {} ==> completed && calls == old(calls)
    {
      var pending := table.Keys;
      ghost var visited: seq<string> := [];
      ghost var issued: seq<OsCall> := [];
      ghost var before := table;
      ghost var log := calls;
      completed := true;
      while pending != {}
        invariant CleanupProgress(platform, before, table, pending, visited, issued, answers)
        invariant calls == log + issued
        decreases pending
      {
        var id :| id in pending;
        ghost var more := Visit(platform, table[id], answers(id)).calls;
        CleanupStep(platform, before, table, pending, visited, issued, id, answers);
        CleanupAborted(platform, before, table, pending, visited, issued, id, answers);
        AppendAssoc(log, issued, more);
        var raised := CleanupEntry(id, answers(id));
        issued := issued + more;
        if raised {
          completed, order := false, visited + [id];
          return;
        }
        visited := visited + [id];
        pending := pending - {id};
      }
      CleanupFinished(platform, before, table, visited, issued, answers);
      AppendedAfter(log, issued);
      order := visited;
    }

    /** One pass of the loop in `cleanup_processes`: stop the process under
        `id` if it is running, then drop the entry; an exception escaping
        the stop leaves the entry in place. */
    method CleanupEntry(id: string, a: Answers) returns (raised: bool)
      requires id in table
      modifies this`table, this`calls
      ensures var e := Visit(platform, old(table)[id], a);
        && raised == e.raised
        && calls == old(calls) + e.calls
        && table == if raised then old(table) else old(table) - {id}
    {
      var proc := table[id];
      if proc.alive {
        var e := Termination(platform, proc.pid, a);
        calls := calls + e.calls;
        if e.raised {
          return true;
        }
      }
      table := table - {id};
      return false;
    }

    /** Not an operation of the supervisor: the OS event of the process
        recorded for `id` exiting on its own, after which `poll()` reports it
        finished. */
    method Exit(id: string)
      requires Valid()
      modifies this`table
      ensures Valid()
      ensures table == if id in old(table) then old(table)[id := Proc(old(table)[id].pid, false)] else old(table)
    {
      if id in table {
        table := table[id := Proc(table[id].pid, false)];
      }
    }
  }
}
