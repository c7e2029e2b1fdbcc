/** The process table (`running_processes`) as a value, and the status
    snapshot that `format_status` derives from it and the registry. */
module Status {
  import opened Registry

  /** A child-process handle as the supervisor records it: its pid, and
      whether `poll()` would find it still running. */
  datatype Proc = Proc(pid: int, alive: bool)

  /** App id to handle: at most one handle per id. */
  type Table = map<string, Proc>

  /** One element of the snapshot sent to clients. */
  datatype StatusEntry = StatusEntry(id: string, name: string, url: string, running: bool, pid: Option<int>)

  /** A handle is recorded for `id` and its process has not exited. */
  predicate Live(table: Table, id: string) {
    id in table && table[id].alive
  }

  /** The pids of the processes the table holds that are still running. */
  ghost function LivePids(table: Table): set<int> {
    set id | id in table && table[id].alive :: table[id].pid
  }

  /** The snapshot entry of one descriptor, with one liveness observation. */
  function EntryOf(d: AppDescriptor, table: Table): (e: StatusEntry)
    ensures e.id == d.id && e.name == d.name && e.url == d.url
    ensures e.running <==> Live(table, d.id)
    ensures e.pid.Some? <==> e.running
    ensures e.running ==> e.pid.value == table[d.id].pid
  {
    var running := Live(table, d.id);
    StatusEntry(d.id, d.name, d.url, running, if running then Some(table[d.id].pid) else None)
  }

  /** The snapshot: one entry per descriptor, appended in registry order. */
  function Snapshot(apps: seq<AppDescriptor>, table: Table): (s: seq<StatusEntry>)
    ensures |s| == |apps|
  {
    if apps == [] then []
    else Snapshot(apps[..|apps| - 1], table) + [EntryOf(apps[|apps| - 1], table)]
  }

  /** Entry `i` of the snapshot describes descriptor `i`: it copies the id,
      name and url, reports running exactly when a live handle is recorded,
      and carries that handle's pid when running and no pid otherwise. */
  lemma {:induction false} SnapshotAt(apps: seq<AppDescriptor>, table: Table, i: nat)
    requires i < |apps|
    ensures var e := Snapshot(apps, table)[i];
      && e.id == apps[i].id && e.name == apps[i].name && e.url == apps[i].url
      && (e.running <==> apps[i].id in table && table[apps[i].id].alive)
      && e.pid == (if e.running then Some(table[apps[i].id].pid) else None)
  {
    var n := |apps| - 1;
    if i < n {
      SnapshotAt(apps[..n], table, i);
      assert Snapshot(apps, table)[i] == Snapshot(apps[..n], table)[i];
    }
  }

  /** An app with no live handle is never reported running, and no pid is
      shown for it. */
  lemma {:induction false} NotRunningWithoutLiveHandle(apps: seq<AppDescriptor>, table: Table, id: string)
    requires !Live(table, id)
    ensures forall i | 0 <= i < |apps| && apps[i].id == id ::
      !Snapshot(apps, table)[i].running && Snapshot(apps, table)[i].pid == None
  {
    forall i | 0 <= i < |apps| && apps[i].id == id
      ensures !Snapshot(apps, table)[i].running && Snapshot(apps, table)[i].pid == None
    {
      SnapshotAt(apps, table, i);
    }
  }

  /** An app with a live handle is reported running with that handle's pid. */
  lemma {:induction false} RunningWithLiveHandle(apps: seq<AppDescriptor>, table: Table, id: string)
    requires Live(table, id)
    ensures forall i | 0 <= i < |apps| && apps[i].id == id ::
      Snapshot(apps, table)[i].running && Snapshot(apps, table)[i].pid == Some(table[id].pid)
  {
    forall i | 0 <= i < |apps| && apps[i].id == id
      ensures Snapshot(apps, table)[i].running && Snapshot(apps, table)[i].pid == Some(table[id].pid)
    {
      SnapshotAt(apps, table, i);
    }
  }

  /** Dropping a stale handle (one whose process has exited) does not change
      what the snapshot reports. */
  lemma {:induction false} PurgeKeepsSnapshot(apps: seq<AppDescriptor>, table: Table, id: string)
    requires !Live(table, id)
    ensures Snapshot(apps, table - {id}) == Snapshot(apps, table)
  {
    if apps != [] {
      PurgeKeepsSnapshot(apps[..|apps| - 1], table, id);
    }
  }
}
