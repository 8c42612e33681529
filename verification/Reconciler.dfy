/**
 The status reconciler (internal/daemon/reconciler.go) over the agents table and Docker's
 answers (internal/sandbox/docker.go). Nobody else writes the table during a pass.
 */
module Reconciler {
  import opened Basics

  /** What ContainerInspect tells of a container. */
  datatype State = State(
    running: bool, paused: bool, restarting: bool, dead: bool, oomKilled: bool, exitCode: int, status: string)

  datatype Info = Info(state: Option<State>)

  /** A row of the agents table; `rest` is its other columns. */
  datatype AgentRecord = AgentRecord(name: string, containerID: string, status: string, updatedAt: nat, rest: string)

  /** InspectStatus: the first flag that is set decides. */
  function LiveStatus(info: Info): string {
    match info.state
    case None => "unknown"
    case Some(s) =>
      if s.running then "running"
      else if s.paused then "paused"
      else if s.restarting then "restarting"
      else if s.dead then "dead"
      else if s.oomKilled then "oomkilled"
      else if s.exitCode != 0 then "exited"
      else if s.status == "created" then "created"
      else s.status
  }

  /** The status a row ought to have; Docker answers nothing for a container it does not know. */
  function Due(docker: string -> Option<Info>, rec: AgentRecord): string {
    if rec.containerID == "" || rec.status == "created" then rec.status
    else
      match docker(rec.containerID)
      case None => "dead"
      case Some(info) => LiveStatus(info)
  }

  ghost predicate Settled(docker: string -> Option<Info>, rec: AgentRecord) {
    rec.status == Due(docker, rec)
  }

  /** The first flag that is set is the status, a non-zero exit code means exited, else Docker's own word is taken. */
  lemma LiveStatusTable(s: State)
    ensures var live := LiveStatus(Info(Some(s)));
            && (s.running ==> live == "running")
            && (s.paused && !s.running ==> live == "paused")
            && (s.restarting && !s.running && !s.paused ==> live == "restarting")
            && (s.dead && !s.running && !s.paused && !s.restarting ==> live == "dead")
            && (s.oomKilled && !s.running && !s.paused && !s.restarting && !s.dead ==> live == "oomkilled")
            && (!s.running && !s.paused && !s.restarting && !s.dead && !s.oomKilled ==>
                  live == if s.exitCode != 0 then "exited" else s.status)
    ensures LiveStatus(Info(None)) == "unknown"
  {
  }

  /**
   A row is settled when it has no container or is just created, or when it says what Docker
   says of its container, "dead" of one that Docker does not know.
   */
  lemma SettledMeans(docker: string -> Option<Info>, rec: AgentRecord)
    ensures Settled(docker, rec)
            <==> || rec.containerID == "" || rec.status == "created"
                 || (docker(rec.containerID) == None && rec.status == "dead")
                 || (docker(rec.containerID).Some? && rec.status == LiveStatus(docker(rec.containerID).value))
  {
  }

  /** The row after a write: its due status, a time, and nothing else new. */
  ghost predicate Written(docker: string -> Option<Info>, before: AgentRecord, after: AgentRecord) {
    after == before.(status := Due(docker, before), updatedAt := after.updatedAt)
  }

  /** A written row needs no second write, even when Docker says "created" and later passes skip it. */
  lemma WrittenIsSettled(docker: string -> Option<Info>, before: AgentRecord, after: AgentRecord)
    requires Written(docker, before, after)
    ensures Settled(docker, after)
  {
  }

  ghost predicate AllSettled(docker: string -> Option<Info>, rows: map<string, AgentRecord>) {
    forall n :: n in rows ==> Settled(docker, rows[n])
  }

  /** What a pass makes of a row: only an unsettled one is written, and if all goes well it is. */
  ghost predicate Passed(docker: string -> Option<Info>, healthy: bool, before: AgentRecord, after: AgentRecord) {
    if Settled(docker, before) then after == before
    else Written(docker, before, after) || (!healthy && after == before)
  }

  /** A row that was changed bears the time of the change. */
  ghost predicate Timely(before: AgentRecord, after: AgentRecord, from: nat, to: nat) {
    after == before || from <= after.updatedAt <= to
  }

  /** Where a row stands in the middle of a pass. */
  ghost predicate Went(
    docker: string -> Option<Info>, healthy: bool, before: AgentRecord, after: AgentRecord, left: bool,
    from: nat, to: nat)
  {
    && Timely(before, after, from, to)
    && if left then after == before else Passed(docker, healthy, before, after)
  }

  /** What a pass makes of the table when nothing fails. */
  ghost predicate Reconciled(
    docker: string -> Option<Info>, before: map<string, AgentRecord>, after: map<string, AgentRecord>)
  {
    && after.Keys == before.Keys
    && forall n :: n in before ==> Passed(docker, true, before[n], after[n])
  }

  /** A pass settles every row, and a table that is settled is left as it is. */
  lemma ReconciledIsFixed(
    docker: string -> Option<Info>, before: map<string, AgentRecord>, after: map<string, AgentRecord>)
    requires Reconciled(docker, before, after)
    ensures AllSettled(docker, after)
    ensures after == before <==> AllSettled(docker, before)
    ensures forall again :: Reconciled(docker, after, again) ==> again == after
  {
    forall n | n in after ensures Settled(docker, after[n]) {
      if !Settled(docker, before[n]) { WrittenIsSettled(docker, before[n], after[n]); }
    }
  }

  class StatusReconciler {
    const docker: string -> Option<Info>
    var rows: map<string, AgentRecord>
    var clock: nat
    var writes: nat  // statements that changed a row

    ghost predicate Valid()
      reads this
    {
      forall n :: n in rows ==> rows[n].name == n
    }

    constructor (docker: string -> Option<Info>, rows: map<string, AgentRecord>)
      requires forall n :: n in rows ==> rows[n].name == n
      ensures Valid() && this.docker == docker && this.rows == rows
    {
      this.docker, this.rows, clock, writes := docker, rows, 0, 0;
    }

    /** writeStatus; the update may fail, and is then only logged. */
    method WriteStatus(rec: AgentRecord, newStatus: string, healthy: bool)
      requires Valid() && rec.name in rows
      modifies this
      ensures Valid() && rows.Keys == old(rows.Keys) && old(clock) <= clock
      ensures forall n :: n in rows && n != rec.name ==> rows[n] == old(rows)[n]
      ensures
        || (writes == old(writes) + 1 && exists t: nat ::
              old(clock) <= t <= clock && rows[rec.name] == rec.(status := newStatus, updatedAt := t))
        || (!healthy && writes == old(writes) && rows == old(rows))
    {
      var wait: nat := *;
      if wait > 0 { clock := clock + wait; }
      var now := rec.(status := newStatus, updatedAt := clock);
      var fails: bool := *;
      if healthy || !fails {
        rows := rows[now.name := now];
        writes := writes + 1;
        assert rows[rec.name] == rec.(status := newStatus, updatedAt := clock);
      }
    }

    /** The body of the loop, for one row as it was listed. */
    method ReconcileRow(rec: AgentRecord, healthy: bool)
      requires Valid() && rec.name in rows && rows[rec.name] == rec
      modifies this
      ensures Valid() && rows.Keys == old(rows.Keys) && old(clock) <= clock
      ensures forall n :: n in rows && n != rec.name ==> rows[n] == old(rows)[n]
      ensures Passed(docker, healthy, rec, rows[rec.name])
      ensures Timely(rec, rows[rec.name], old(clock), clock)
      ensures Settled(docker, rec) ==> rows == old(rows) && writes == old(writes)
    {
      if rec.containerID == "" {
        return;
      }
      if rec.status == "created" {
        return;
      }
      var live := docker(rec.containerID);
      if live.None? {
        if rec.status != "dead" {
          WriteStatus(rec, "dead", healthy);
        }
        return;
      }
      if LiveStatus(live.value) != rec.status {
        WriteStatus(rec, LiveStatus(live.value), healthy);
      }
    }

    /**
     ReconcileOnce. Whatever fails or is cancelled, a row is either as it was or written
     with its due status and the time of the write; when nothing does, exactly the unsettled
     rows are written.
     */
    method ReconcileOnce(healthy: bool)
      requires Valid()
      modifies this
      ensures Valid() && rows.Keys == old(rows.Keys) && old(clock) <= clock
      ensures forall n :: n in rows ==> Passed(docker, healthy, old(rows)[n], rows[n])
      ensures forall n :: n in rows ==> Timely(old(rows)[n], rows[n], old(clock), clock)
      ensures AllSettled(docker, old(rows)) ==> rows == old(rows) && writes == old(writes)
    {
      var unlisted: bool := *;
      if unlisted && !healthy {
        return;
      }
      var agents, left := rows, rows.Keys;
      ghost var from, w := clock, writes;
      while left != {}
        invariant InPass(agents, left, healthy, from, w)
        decreases |left|
      {
        var cancelled: bool := *;
        if cancelled && !healthy {
          return;
        }
        var name :| name in left;
        ReconcileNext(agents, left, name, healthy, from, w);
        left := left - {name};
      }
    }

    /** In the middle of a pass: `left` are the rows still to be looked at. */
    ghost predicate InPass(agents: map<string, AgentRecord>, left: set<string>, healthy: bool, from: nat, w: nat)
      reads this
    {
      && Valid() && rows.Keys == agents.Keys && left <= agents.Keys && from <= clock
      && (forall n :: n in rows ==> Went(docker, healthy, agents[n], rows[n], n in left, from, clock))
      && (AllSettled(docker, agents) ==> rows == agents && writes == w)
    }

    method ReconcileNext(agents: map<string, AgentRecord>, ghost left: set<string>, name: string, healthy: bool,
                         ghost from: nat, ghost w: nat)
      requires InPass(agents, left, healthy, from, w) && name in left
      modifies this
      ensures InPass(agents, left - {name}, healthy, from, w)
    {
      ReconcileRow(agents[name], healthy);
    }

    /** With nothing failing, one pass is enough: the next writes nothing. */
    method ReconcileTwice() returns (settled: map<string, AgentRecord>, writesSoFar: nat)
      requires Valid()
      modifies this
      ensures Reconciled(docker, old(rows), settled) && AllSettled(docker, settled)
      ensures rows == settled && writes == writesSoFar
    {
      ReconcileOnce(true);
      settled, writesSoFar := rows, writes;
      ReconciledIsFixed(docker, old(rows), rows);
      ReconcileOnce(true);
    }
  }
}
