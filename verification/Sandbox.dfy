/** The transaction sandbox: the server's open sessions, and the client protocol that always rolls back. */
module Sandbox {
  import opened Handoff

  /** Row counts per staging table. */
  type Staging = map<string, nat>

  /** What the simulated SQL does to the data it sees; it is transaction-local. */
  type Effect = Staging -> Staging

  datatype BeginFate = Opens(id: string) | OmitsSessionId | BeginRaises

  /** A tool call answers, or raises (with a statement-timeout message or another one) and has no effect. */
  datatype Fate = Answers | Raises(statementTimeout: bool)

  /** Rolling back answers, raises before it reaches the server, or raises inside it, after the session was popped. */
  datatype RollbackFate = RollsBack | NeverArrives | RaisesAfterPop

  /** How the tools behave during one attempt. */
  datatype Attempt = Attempt(
    begin: BeginFate,
    pre: Fate,
    execute: Fate,
    effect: Effect,
    post: Fate,
    triggers: Fate,
    triggerLog: seq<string>,
    rollback: RollbackFate)

  datatype Call =
    | BeginCall(session: Option<string>)
    | CaptureCall(id: string, phase: string)
    | ExecuteCall(id: string, sql: string)
    | TriggerLogCall(id: string)
    | RollbackCall(id: string)

  datatype Ending = Completed | TimedOut | Failed

  datatype CascadeEntry = CascadeEntry(
    table: string, estimatedRows: int, actualRows: Option<nat>, action: string, depth: nat)

  /** The contract fields a simulation reads. */
  datatype Proposal = Proposal(
    operationType: OperationType, primaryTable: string, sql: string, cascade: seq<CascadeEntry>)

  datatype SimulationResult = SimulationResult(
    executed: bool,
    available: bool,
    timeoutOccurred: bool,
    skipped: Option<string>,
    primaryRows: Option<nat>,
    cascade: seq<CascadeEntry>,
    triggerLog: seq<string>)

  class SandboxServer {
    var sessions: map<string, Staging>
    var committed: Staging

    constructor (committed: Staging)
      ensures sessions == map[] && this.committed == committed
    {
      this.sessions, this.committed := map[], committed;
    }

    /** The transaction starts from the committed data. */
    method Begin(id: string)
      modifies this`sessions
      ensures sessions == old(sessions)[id := committed]
    {
      sessions := sessions[id := committed];
    }

    method Execute(id: string, effect: Effect) returns (ok: bool)
      modifies this`sessions
      ensures ok == (id in old(sessions))
      ensures sessions == if ok then old(sessions)[id := effect(old(sessions)[id])] else old(sessions)
    {
      ok := id in sessions;
      if ok {
        sessions := sessions[id := effect(sessions[id])];
      }
    }

    /** capture_diff: the rows the session sees in each table, -1 for a table it cannot count. */
    method Capture(id: string, tables: seq<string>) returns (counts: Option<map<string, int>>)
      ensures counts == if id in sessions then Some(Counts(sessions[id], tables)) else None
    {
      if id !in sessions {
        return None;
      }
      var seen: map<string, int> := map[];
      for i := 0 to |tables|
        invariant seen == Counts(sessions[id], tables[..i])
      {
        var t := tables[i];
        seen := seen[t := if t in sessions[id] then sessions[id][t] else -1];
        assert tables[..i + 1] == tables[..i] + [t];
      }
      assert tables[..|tables|] == tables;
      return Some(seen);
    }

    /** Popping an unknown session is not an error. */
    method Rollback(id: string)
      modifies this`sessions
      ensures sessions == old(sessions) - {id}
    {
      sessions := sessions - {id};
    }
  }

  // ----- the shape of a session -----

  predicate Uses(c: Call, id: string) {
    match c
    case CaptureCall(x, _) => x == id
    case ExecuteCall(x, _) => x == id
    case TriggerLogCall(x) => x == id
    case _ => false
  }

  /** One attempt's calls: a begin that opened nothing, or a begin, work on that session only, and exactly
      one rollback of it, last. */
  predicate IsSession(calls: seq<Call>) {
    && calls != []
    && calls[0].BeginCall?
    && match calls[0].session
       case None => |calls| == 1
       case Some(id) =>
         && |calls| >= 2
         && calls[|calls| - 1] == RollbackCall(id)
         && forall i | 0 < i < |calls| - 1 :: Uses(calls[i], id)
  }

  /** What is called with the session open, when nothing raises. */
  function AllWork(id: string, sql: string): seq<Call> {
    [CaptureCall(id, "pre"), ExecuteCall(id, sql), CaptureCall(id, "post"), TriggerLogCall(id)]
  }

  /** How many of these calls are made: the first one that raises is the last. */
  function WorkCalls(a: Attempt): nat {
    if a.pre.Raises? then 1 else if a.execute.Raises? then 2 else if a.post.Raises? then 3 else 4
  }

  /** All calls of one attempt. */
  function SessionCalls(sql: string, a: Attempt): seq<Call> {
    if a.begin.Opens? then
      [BeginCall(Some(a.begin.id))] + AllWork(a.begin.id, sql)[..WorkCalls(a)] + [RollbackCall(a.begin.id)]
    else [BeginCall(None)]
  }

  /** The first tool that raises ends the attempt; only a timeout of the SQL itself counts as one. */
  function EndingOf(a: Attempt): Ending {
    if !a.begin.Opens? || a.pre.Raises? then Failed
    else if a.execute.Raises? then if a.execute.statementTimeout then TimedOut else Failed
    else if a.post.Raises? || a.triggers.Raises? then Failed
    else Completed
  }

  /** The sessions left behind: the attempt's own one exactly when its rollback never reached the server. */
  predicate Leaks(a: Attempt) {
    a.begin.Opens? && a.rollback == NeverArrives
  }

  /** The ids that stay open after both attempts: the second runs exactly when the first one's SQL timed out. */
  function LeakedBy(skip: bool, first: Attempt, second: Attempt): set<string> {
    if skip then {}
    else
      (if Leaks(first) then {first.begin.id} else {})
      + if EndingOf(first) == TimedOut && Leaks(second) then {second.begin.id} else {}
  }

  // ----- what a simulation measures -----

  function Counts(s: Staging, tables: seq<string>): map<string, int> {
    map t | t in tables :: if t in s then s[t] else -1
  }

  /** By how many rows a table differs; unknown when it is missing on either side. */
  function Change(before: Staging, after: Staging, table: string): Option<nat> {
    if table == "" || table !in before || table !in after then None
    else if before[table] <= after[table] then Some(after[table] - before[table])
    else Some(before[table] - after[table])
  }

  function Measured(entry: CascadeEntry, before: Staging, after: Staging): CascadeEntry {
    match Change(before, after, entry.table)
    case None => entry
    case Some(n) => entry.(actualRows := Some(n))
  }

  /** The result reports what the SQL did to the staging data, table by table. */
  predicate Reports(r: SimulationResult, p: Proposal, before: Staging, after: Staging, triggerLog: seq<string>) {
    && r.executed && r.available && !r.timeoutOccurred && r.skipped == None
    && r.primaryRows == Change(before, after, p.primaryTable)
    && |r.cascade| == |p.cascade|
    && (forall k | 0 <= k < |p.cascade| :: r.cascade[k] == Measured(p.cascade[k], before, after))
    && r.triggerLog == triggerLog
  }

  /** A result without measurements. */
  function Unmeasured(timeout: bool): SimulationResult {
    SimulationResult(false, false, timeout, None, None, [], [])
  }

  function SkipReason(p: Proposal): Option<string> {
    if p.operationType == SELECT then Some("select_operation")
    else if p.primaryTable == "" then Some("no_primary_table")
    else None
  }

  function Tables(p: Proposal): seq<string> {
    [p.primaryTable] + CascadeTables(p.cascade)
  }

  function CascadeTables(cascade: seq<CascadeEntry>): (tables: seq<string>)
    ensures forall k | 0 <= k < |cascade| :: cascade[k].table != "" ==> cascade[k].table in tables
    ensures "" !in tables
  {
    if cascade == [] then []
    else
      var last := cascade[|cascade| - 1].table;
      CascadeTables(cascade[..|cascade| - 1]) + if last != "" then [last] else []
  }

  /** Both counts of a table are known. */
  predicate Counted(pre: map<string, int>, post: map<string, int>, t: string) {
    t in pre && t in post && pre[t] >= 0 && post[t] >= 0
  }

  function Difference(x: int, y: int): nat {
    if x <= y then y - x else x - y
  }

  /** _build_result on the two captures. */
  method BuildResult(p: Proposal, pre: map<string, int>, post: map<string, int>, triggerLog: seq<string>,
                     ghost before: Staging, ghost after: Staging)
    returns (r: SimulationResult)
    requires pre == Counts(before, Tables(p)) && post == Counts(after, Tables(p)) && p.primaryTable != ""
    ensures Reports(r, p, before, after, triggerLog)
  {
    var primary: Option<nat> := None;
    if Counted(pre, post, p.primaryTable) {
      primary := Some(Difference(pre[p.primaryTable], post[p.primaryTable]));
    }
    var cascade: seq<CascadeEntry> := [];
    for k := 0 to |p.cascade|
      invariant |cascade| == k
      invariant forall j | 0 <= j < k :: cascade[j] == Measured(p.cascade[j], before, after)
    {
      var entry := p.cascade[k];
      if Counted(pre, post, entry.table) {
        entry := entry.(actualRows := Some(Difference(pre[entry.table], post[entry.table])));
      }
      cascade := cascade + [entry];
    }
    r := SimulationResult(true, true, false, None, primary, cascade, triggerLog);
  }

  class SandboxClient {
    const server: SandboxServer
    var log: seq<Call>

    constructor (server: SandboxServer)
      ensures this.server == server && log == []
    {
      this.server, log := server, [];
    }

    /** _run_once: whatever raises, the finally clause rolls back the session that was opened. The calls are exactly
        those of the attempt, and a completed attempt reports what the SQL did to the committed data. */
    method RunOnce(p: Proposal, a: Attempt) returns (ending: Ending, r: SimulationResult)
      requires p.primaryTable != ""
      requires a.begin.Opens? ==> a.begin.id !in server.sessions
      modifies this, server`sessions
      ensures ending == EndingOf(a)
      ensures log == old(log) + SessionCalls(p.sql, a)
      ensures ending == Completed ==>
                Reports(r, p, server.committed, a.effect(server.committed), a.triggerLog)
      ensures if Leaks(a) then server.sessions.Keys == old(server.sessions.Keys) + {a.begin.id}
                               && server.sessions - {a.begin.id} == old(server.sessions)
              else server.sessions == old(server.sessions)
    {
      r := Unmeasured(false);
      if !a.begin.Opens? {
        log := log + [BeginCall(None)];
        return Failed, r;
      }
      var id := a.begin.id;
      server.Begin(id);
      log := log + [BeginCall(Some(id))];
      ending, r := Work(id, p, a);
      log := log + [RollbackCall(id)];
      if a.rollback != NeverArrives {
        server.Rollback(id);
      }
    }

    /** The body of the try block, with the session open. */
    method Work(id: string, p: Proposal, a: Attempt) returns (ending: Ending, r: SimulationResult)
      requires p.primaryTable != ""
      requires a.begin == Opens(id) && id in server.sessions && server.sessions[id] == server.committed
      modifies this, server`sessions
      ensures ending == EndingOf(a)
      ensures log == old(log) + AllWork(id, p.sql)[..WorkCalls(a)]
      ensures ending == Completed ==>
                Reports(r, p, server.committed, a.effect(server.committed), a.triggerLog)
      ensures server.sessions.Keys == old(server.sessions.Keys)
      ensures server.sessions - {id} == old(server.sessions) - {id}
    {
      hide Reports, Counts, Tables;
      r := Unmeasured(false);
      ghost var work := AllWork(id, p.sql);
      log := log + [CaptureCall(id, "pre")];
      assert work[..1] == [CaptureCall(id, "pre")];
      if a.pre.Raises? {
        return Failed, r;
      }
      var pre := server.Capture(id, Tables(p));
      log := log + [ExecuteCall(id, p.sql)];
      assert work[..2] == work[..1] + [ExecuteCall(id, p.sql)];
      if a.execute.Raises? {
        return if a.execute.statementTimeout then TimedOut else Failed, r;
      }
      var _ := server.Execute(id, a.effect);
      log := log + [CaptureCall(id, "post")];
      assert work[..3] == work[..2] + [CaptureCall(id, "post")];
      if a.post.Raises? {
        return Failed, r;
      }
      var post := server.Capture(id, Tables(p));
      log := log + [TriggerLogCall(id)];
      assert work[..4] == work[..3] + [TriggerLogCall(id)];
      if a.triggers.Raises? {
        return Failed, r;
      }
      r := BuildResult(p, pre.value, post.value, a.triggerLog, server.committed, a.effect(server.committed));
      return Completed, r;
    }

    /** simulate: SELECTs and operations without a table are skipped; failures become results. */
    method Simulate(p: Proposal, a: Attempt) returns (r: SimulationResult)
      requires a.begin.Opens? ==> a.begin.id !in server.sessions
      modifies this, server`sessions
      ensures SkipReason(p).Some? ==>
        && r == SimulationResult(false, true, false, SkipReason(p), None, [], [])
        && log == old(log) && server.sessions == old(server.sessions)
      ensures SkipReason(p) == None ==>
        && log == old(log) + SessionCalls(p.sql, a)
        && (EndingOf(a) == Completed ==>
              Reports(r, p, server.committed, a.effect(server.committed), a.triggerLog))
        && (EndingOf(a) != Completed ==> r == Unmeasured(EndingOf(a) == TimedOut))
        && (!Leaks(a) ==> server.sessions == old(server.sessions))
        && server.sessions.Keys == old(server.sessions.Keys) + (if Leaks(a) then {a.begin.id} else {})
    {
      if p.operationType == SELECT {
        return SimulationResult(false, true, false, Some("select_operation"), None, [], []);
      }
      if p.primaryTable == "" {
        return SimulationResult(false, true, false, Some("no_primary_table"), None, [], []);
      }
      var ending;
      ending, r := RunOnce(p, a);
      if ending != Completed {
        r := Unmeasured(ending == TimedOut);
      }
    }

    /** _run_simulation_with_retry: one session, and a second one exactly when the first attempt's SQL timed out; the
        open sessions end as they began but for those whose rollback never arrived; the result reports the attempt that
        completed, and any failure is reported as a timeout. */
    method RunWithRetry(p: Proposal, first: Attempt, second: Attempt) returns (r: SimulationResult)
      requires first.begin.Opens? ==> first.begin.id !in server.sessions
      requires second.begin.Opens? ==> second.begin.id !in server.sessions && first.begin != second.begin
      modifies this, server`sessions
      ensures log == old(log) + RetryCalls(p, first, second)
      ensures server.sessions.Keys == old(server.sessions.Keys) + LeakedBy(SkipReason(p).Some?, first, second)
      ensures LeakedBy(SkipReason(p).Some?, first, second) == {} ==> server.sessions == old(server.sessions)
      ensures server.committed == old(server.committed)
      ensures r.skipped == SkipReason(p)
      ensures r.available <==> SkipReason(p).Some? || EndingOf(first) == Completed
                               || (EndingOf(first) == TimedOut && EndingOf(second) == Completed)
      ensures r.timeoutOccurred <==> !r.available
      ensures r.executed <==> r.available && r.skipped == None
      ensures r.executed ==>
                var a := if EndingOf(first) == Completed then first else second;
                Reports(r, p, server.committed, a.effect(server.committed), a.triggerLog)
    {
      r := Simulate(p, first);
      if r.timeoutOccurred {
        r := Simulate(p, second);
      }
      if !r.available {
        r := Unmeasured(true);
      }
    }
  }

  function RetryCalls(p: Proposal, first: Attempt, second: Attempt): seq<Call> {
    if SkipReason(p).Some? then []
    else SessionCalls(p.sql, first) + if EndingOf(first) == TimedOut then SessionCalls(p.sql, second) else []
  }

  // ----- what the shape gives -----

  predicate Opened(calls: seq<Call>, id: string) {
    exists i | 0 <= i < |calls| :: calls[i] == BeginCall(Some(id))
  }

  function RollbacksOf(calls: seq<Call>, id: string): nat {
    if calls == [] then 0
    else RollbacksOf(calls[..|calls| - 1], id) + if calls[|calls| - 1] == RollbackCall(id) then 1 else 0
  }

  lemma {:induction false} NoRollback(calls: seq<Call>, id: string)
    requires forall i | 0 <= i < |calls| :: calls[i] != RollbackCall(id)
    ensures RollbacksOf(calls, id) == 0
  {
    if calls != [] {
      NoRollback(calls[..|calls| - 1], id);
    }
  }

  /** In a session's calls every id that was opened is rolled back exactly once, by the last call; no other id is. */
  lemma SessionRollsBackExactlyOnce(calls: seq<Call>, id: string)
    requires IsSession(calls)
    ensures RollbacksOf(calls, id) == if Opened(calls, id) then 1 else 0
    ensures Opened(calls, id) ==> calls[|calls| - 1] == RollbackCall(id)
  {
    var n := |calls| - 1;
    forall i | 0 <= i < n
      ensures calls[..n][i] != RollbackCall(id) && (i > 0 ==> !calls[i].BeginCall?)
    {
    }
    NoRollback(calls[..n], id);
    if calls[0].session == Some(id) {
      assert calls[0] == BeginCall(Some(id));
    }
  }

  /** Every attempt's calls form a session. */
  lemma AttemptIsASession(sql: string, a: Attempt)
    ensures IsSession(SessionCalls(sql, a))
  {
    if a.begin.Opens? {
      var work := AllWork(a.begin.id, sql);
      assert forall k | 0 <= k < 4 :: Uses(work[k], a.begin.id);
    }
  }

  /** A completed attempt captured, sent the SQL, captured again and read the trigger log, in one session. */
  lemma CompletedAttemptDidAllWork(sql: string, a: Attempt)
    requires EndingOf(a) == Completed
    ensures var id := a.begin.id;
      SessionCalls(sql, a) == [BeginCall(Some(id)), CaptureCall(id, "pre"), ExecuteCall(id, sql),
                               CaptureCall(id, "post"), TriggerLogCall(id), RollbackCall(id)]
  {
  }

  function Executions(calls: seq<Call>): nat {
    if calls == [] then 0 else Executions(calls[..|calls| - 1]) + if calls[|calls| - 1].ExecuteCall? then 1 else 0
  }

  lemma {:induction false} ExecutionsOfConcat(x: seq<Call>, y: seq<Call>)
    ensures Executions(x + y) == Executions(x) + Executions(y)
  {
    if y == [] {
      assert x + y == x;
    } else {
      var n := |y| - 1;
      ExecutionsOfConcat(x, y[..n]);
      assert (x + y)[..|x + y| - 1] == x + y[..n];
    }
  }

  /** The SQL is sent exactly once if the session opened and the first capture answered, and not at all otherwise. */
  lemma SqlIsSentOnceExactly(sql: string, a: Attempt)
    ensures Executions(SessionCalls(sql, a)) == if a.begin.Opens? && a.pre.Answers? then 1 else 0
  {
    if a.begin.Opens? {
      var id := a.begin.id;
      var work := AllWork(id, sql);
      assert SessionCalls(sql, a) == ([BeginCall(Some(id))] + work[..WorkCalls(a)]) + [RollbackCall(id)];
      ExecutionsOfConcat([BeginCall(Some(id))] + work[..WorkCalls(a)], [RollbackCall(id)]);
      ExecutionsOfConcat([BeginCall(Some(id))], work[..WorkCalls(a)]);
      assert work[..1] == [] + [work[0]] && work[..2] == work[..1] + [work[1]];
      ExecutionsOfConcat(work[..1], [work[1]]);
      if WorkCalls(a) >= 3 {
        assert work[..WorkCalls(a)] == work[..2] + work[2..WorkCalls(a)];
        ExecutionsOfConcat(work[..2], work[2..WorkCalls(a)]);
        NoExecution(work[2..WorkCalls(a)]);
      }
    }
  }

  lemma {:induction false} NoExecution(calls: seq<Call>)
    requires forall i | 0 <= i < |calls| :: !calls[i].ExecuteCall?
    ensures Executions(calls) == 0
  {
    if calls != [] {
      NoExecution(calls[..|calls| - 1]);
    }
  }
}
