/** The pipeline task itself, in the shape of the source: graph loop, poll loop with its timeout branch,
    shared contract objects. At every suspension point the environment may post any number of decisions and
    let any amount of time pass. The pipeline is proved to be a run of the step system in Protocol. */
module Pipelines {
  import opened Handoff
  import opened Manifests
  import opened Protocol
  import opened ProtocolProofs
  import opened ProtocolProgress
  import opened WorkflowStores
  import StatusStreams

  /** What happens while the pipeline is suspended once: decisions posted for its id, time passed, the status other
      tasks leave behind if any, and the answer (or exception) the awaited call comes back with. */
  datatype Arrival = Arrival(
    posts: seq<DecisionPost>,
    elapsed: nat,
    status: Option<WorkflowStatus>,
    raises: bool,
    mcpError: bool,
    gate: GateOutcome)

  const QUIET := Arrival([], 0, None, false, false, GateOutcome(false, UNKNOWN, 0, 500, None))

  /** The `k`th suspension from here; when the schedule is used up nothing happens any more. */
  function ArrivalAt(arrivals: seq<Arrival>, k: nat): Arrival {
    if k < |arrivals| then arrivals[k] else QUIET
  }

  function Rest(arrivals: seq<Arrival>): seq<Arrival> {
    if arrivals == [] then [] else arrivals[1..]
  }

  /** What EXECUTION records of the target's reply: nothing when there was none or the call raised. */
  function Recorded(reply: Option<Arrival>): Option<bool> {
    if reply.None? || reply.value.raises then None else Some(!reply.value.mcpError)
  }

  function PostsLeft(arrivals: seq<Arrival>): nat {
    if arrivals == [] then 0 else |arrivals[0].posts| + PostsLeft(arrivals[1..])
  }

  /** INTAKE reads this id, SQL and tenant from the manifest; the proxy has already run INTAKE on it once. */
  predicate Seeds(cfg: Config, id: string) {
    && IntakeSql(cfg.manifest) == Some(cfg.rawSql)
    && Truthy(cfg.manifest, "operation_id") && cfg.manifest["operation_id"].text == id
    && "tenant_id" in cfg.manifest && cfg.manifest["tenant_id"] == Str(cfg.tenant)
  }

  /** The display status for a decision that was recorded before the review began. */
  function HonouredStatus(state: ApprovalState): WorkflowStatus {
    match state
    case APPROVED => STATUS_APPROVED
    case TIMED_OUT => STATUS_TIMED_OUT
    case MODIFIED => RUNNING
    case _ => STATUS_REJECTED
  }

  /** The display status the proxy sets when the graph has returned. */
  function FinalStatus(state: ApprovalState): WorkflowStatus {
    match state
    case APPROVED => COMPLETED
    case REJECTED => STATUS_REJECTED
    case AUTO_REJECTED => STATUS_AUTO_REJECTED
    case TIMED_OUT => STATUS_TIMED_OUT
    case MODIFIED => RUNNING
    case PENDING => COMPLETED
  }

  /** The display status the decision endpoint sets for a decision it has recorded. */
  function PostedStatus(decision: string): WorkflowStatus {
    if decision == APPROVE then STATUS_APPROVED else if decision == MODIFY then RUNNING else STATUS_REJECTED
  }

  /** HUMAN_REVIEW shows for a decision recorded beforehand what the endpoint showed, and the final sync changes that
      only from APPROVED to COMPLETED. */
  lemma StatusesAgree(decision: string)
    ensures HonouredStatus(DecidedState(decision)) == PostedStatus(decision)
    ensures decision != APPROVE ==> FinalStatus(DecidedState(decision)) == PostedStatus(decision)
    ensures FinalStatus(APPROVED) == FinalStatus(PENDING) == COMPLETED
    ensures HonouredStatus(TIMED_OUT) == FinalStatus(TIMED_OUT) == STATUS_TIMED_OUT
    ensures FinalStatus(AUTO_REJECTED) == STATUS_AUTO_REJECTED
  {
  }

  /** The posts of one suspension, in order. */
  function PostAll(s: Sys, posts: seq<DecisionPost>): Sys {
    if posts == [] then s else PostDecision(PostAll(s, posts[..|posts| - 1]), posts[|posts| - 1])
  }

  class PipelineTask {
    const store: WorkflowStore
    const id: string
    const cfg: Config
    const proxyContract: HandoffContract
    const record: WorkflowRecord?
    var contract: HandoffContract?
    var now: nat
    var arrivals: seq<Arrival>
    var decisions: seq<DecisionPost>
    var calls: seq<TargetCall>
    var analyses: nat
    var gate: Option<GateOutcome>          // what RISK_GATE wrote
    var reply: Option<Arrival>             // how the target call came back
    var statuses: seq<WorkflowStatus>      // the display statuses the pipeline has set
    ghost var early: Option<bool>          // what EXECUTION recorded instead of a call
    ghost var reading: nat
    ghost var phase: Phase

    /** The step-system state this heap stands for. */
    ghost function Abs(): Sys
      reads this, record, proxyContract, contract
    {
      Sys(
        record != null,
        if record != null && contract != null && record.contract == contract then PipelineContract else ProxyContract,
        proxyContract.Review(),
        if contract == null then UNDECIDED else contract.Review(),
        record != null && record.executionCompleted,
        reading, phase, decisions, calls, analyses)
    }

    /** How many decisions can have been accepted by the end. */
    ghost function Budget(): nat
      reads this`decisions, this`arrivals
    {
      |decisions| + PostsLeft(arrivals)
    }

    /** The shape of the shared objects. */
    ghost predicate Shaped()
      reads this, store, store.records.Values, contract
    {
      && store.Valid()
      && store.Get(id) == record
      && proxyContract.operationId == id
      && (contract != null ==> contract.operationId == id && contract != proxyContract && contract.rawSql == cfg.rawSql
                               && contract.tenantId == cfg.tenant)
      && (contract == null <==> phase == Intake)
      && (record != null ==> record.manifest == cfg.manifest)
      && (record != null ==> record.contract == proxyContract || record.contract == contract)
      && reading <= now
      && (record != null ==> record.executionResult == Recorded(reply))
      && (contract != null ==> contract.executionSuccess == Outcome())
    }

    /** What EXECUTION has recorded: the reply, or what it wrote instead of a call. */
    ghost function Outcome(): Option<bool>
      reads this`reply, this`early
    {
      if Recorded(reply).Some? then Recorded(reply) else early
    }

    /** The proxy builds its own contract, files the record (unless `create` is false) and starts the pipeline.
        A record that was filed under the same id is replaced. */
    constructor (store: WorkflowStore, id: string, cfg: Config, create: bool, arrivals: seq<Arrival>)
      requires store.Valid() && (create || id !in store.records)
      modifies store
      ensures Shaped() && Init(Abs()) && (record != null <==> create)
      ensures this.cfg == cfg && this.arrivals == arrivals && this.store == store && this.id == id
      ensures fresh(proxyContract) && (record != null ==> fresh(record)) && contract == null
      ensures reply == None && early == None
    {
      var initial := new HandoffContract(id, cfg.rawSql, cfg.tenant);
      var filed: WorkflowRecord? := null;
      if create {
        filed := store.Create(initial, cfg.manifest);
      }
      this.store, this.id, this.cfg, this.proxyContract, this.record := store, id, cfg, initial, filed;
      this.contract, this.now, this.arrivals := null, 0, arrivals;
      decisions, calls, analyses := [], [], 0;
      gate, reply, statuses, early := None, None, [], None;
      reading, phase := 0, Intake;
    }

    /** One decision post, as the endpoint performs it. */
    method Deliver(p: DecisionPost)
      requires Shaped()
      modifies this`decisions, record, proxyContract, contract
      ensures Shaped() && Abs() == Protocol.PostDecision(old(Abs()), p)
      ensures record != null ==> record.status == old(record.status)
    {
      var ok := store.RecordDecision(id, p);
      if ok {
        decisions := decisions + [p];
      }
    }

    method DeliverAll(posts: seq<DecisionPost>)
      requires Shaped()
      modifies this`decisions, record, proxyContract, contract
      ensures Shaped() && Abs() == PostAll(old(Abs()), posts)
      ensures record != null ==> record.status == old(record.status)
    {
      for i := 0 to |posts|
        invariant Shaped() && Abs() == PostAll(old(Abs()), posts[..i])
        invariant record != null ==> record.status == old(record.status)
      {
        Deliver(posts[i]);
        assert posts[..i + 1][..i] == posts[..i];
      }
      assert posts[..|posts|] == posts;
    }

    /** update_status by the pipeline itself. */
    method ShowStatus(status: WorkflowStatus)
      requires Shaped()
      modifies this`statuses, record
      ensures Shaped() && Abs() == old(Abs())
      ensures statuses == old(statuses) + [status]
      ensures record != null ==> record.status == status
    {
      LeaveStatus(status);
      statuses := statuses + [status];
    }

    method LeaveStatus(status: WorkflowStatus)
      requires Shaped()
      modifies record
      ensures Shaped() && Abs() == old(Abs())
      ensures record != null ==> record.status == status
    {
      store.SetStatus(id, status);
    }

    /** A suspension point: time passes, posts arrive in order, other tasks write the display status. */
    method Suspend() returns (a: Arrival)
      requires Shaped()
      modifies this`decisions, this`arrivals, this`now, record, proxyContract, contract
      ensures Shaped() && Abs() == PostAll(old(Abs()), a.posts)
      ensures a == ArrivalAt(old(arrivals), 0) && arrivals == Rest(old(arrivals))
      ensures record != null ==> record.status == if a.status.Some? then a.status.value else old(record.status)
      ensures now == old(now) + a.elapsed
      ensures PostsLeft(arrivals) + |a.posts| == old(PostsLeft(arrivals))
    {
      a := QUIET;
      if arrivals != [] {
        a := arrivals[0];
        arrivals := arrivals[1..];
      }
      now := now + a.elapsed;
      DeliverAll(a.posts);
      if a.status.Some? {
        LeaveStatus(a.status.value);
      }
    }

    /** update_contract with the pipeline's own contract. */
    method SaveContract()
      requires Shaped() && contract != null
      modifies record, contract
      ensures Shaped() && Abs() == SyncContract(old(Abs()))
    {
      store.UpdateContract(id, contract);
    }

    // ----- the atomic sections of the nodes -----

    /** INTAKE: a second contract, built from the same manifest. */
    method RunIntake()
      requires Shaped() && phase == Intake && Seeds(cfg, id) && Outcome() == None
      requires record != null ==> record.contract == proxyContract
      modifies this`contract, this`phase
      ensures Shaped() && Abs() == old(Abs()).(pipe := UNDECIDED, phase := Gate)
      ensures fresh(contract)
    {
      var m := cfg.manifest;
      contract := new HandoffContract(m["operation_id"].text, IntakeSql(m).value, m["tenant_id"].text);
      phase := Gate;
    }

    /** RISK_GATE once its tools have answered, and the route taken from it. */
    method FinishGate(g: GateOutcome)
      requires Shaped() && phase == Gate
      modifies this`phase, this`analyses, this`gate, contract
      ensures Shaped() && Abs() == Next(cfg, old(Abs()), Gated(g))
      ensures gate == Some(g)
    {
      hide IsFastPath;
      gate := Some(g);
      if g.hardViolation {
        contract.approvalState := AUTO_REJECTED;
      }
      phase := RouteFromRiskGate(g);
      if RouteFromRiskGate(g) == Analysis {
        analyses := analyses + 1;
      }
    }

    /** HUMAN_REVIEW after the notifier and through the first save. */
    method EnterReview() returns (honoured: bool)
      requires Shaped() && phase.Notifying?
      modifies this`phase, record, contract
      ensures Shaped() && Abs() == Protocol.EnterReview(old(Abs()))
      ensures honoured <==> phase == Reviewed
    {
      honoured := PrepareReview();
      SaveContract();
    }

    /** Its three cases: re-entry after MODIFY, a decision recorded beforehand, and the ordinary one. */
    method PrepareReview() returns (honoured: bool)
      requires Shaped() && phase.Notifying?
      modifies this`phase, contract
      ensures Shaped() && Abs() == Protocol.PrepareReview(old(Abs()))
      ensures honoured <==> phase == Reviewed
    {
      honoured := false;
      if contract.approvalState == MODIFIED {
        contract.approvalState := PENDING;
      } else {
        var current := store.Get(id);
        if current != null && current.contract.approvalState != PENDING {
          contract.CopyReview(current.contract);
          honoured := true;
        }
      }
      phase := if honoured then Reviewed else Entered(phase.deadline);
    }

    /** The poll found a decision: copy it and leave the loop. */
    method TakeDecision()
      requires Shaped() && phase.Sleeping? && record != null && record.contract.approvalState != PENDING
      modifies this`phase, this`reading, contract
      ensures Shaped() && Abs() == PollOnce(old(Abs()), now)
    {
      contract.CopyReview(record.contract);
      reading, phase := now, Reviewed;
    }

    /** The else branch of the poll loop. */
    method TimeOut(deadline: nat)
      requires Shaped() && (phase == Entered(deadline) || phase.Sleeping?) && deadline <= now
      modifies this`phase, this`reading, contract
      ensures Shaped() && Abs() == TestDeadline(old(Abs()), deadline, now)
    {
      contract.TimeOut(now);
      reading, phase := now, Reviewed;
    }

    /** EXECUTION up to the target call: the record, the idempotency guard, the hash guard. */
    method StartExecution() returns (called: bool)
      requires Shaped() && phase == Executing && reply == None
      modifies this`phase, this`calls, this`early, contract
      ensures Shaped() && Abs() == Protocol.RunExecution(cfg, old(Abs()))
      ensures called <==> phase == Calling
      ensures early == if called || record == null then old(early) else Some(record.executionCompleted)
    {
      hide GuardPasses, TargetRequest;
      called := false;
      var current := store.Get(id);
      if current == null {
        phase := Failed;
      } else if current.executionCompleted {
        contract.executionSuccess := Some(true);
        phase, early := Audit, Some(true);
      } else if !GuardPasses(current.manifest, cfg.hash) {
        contract.executionSuccess := Some(false);
        phase, early := Audit, Some(false);
      } else {
        calls := calls + [TargetRequest(current.manifest, contract.rawSql, contract.tenantId, cfg.defaultUrl)];
        called, phase := true, Calling;
      }
    }

    /** EXECUTION after the target answered, with a result or an MCP error, which is recorded on record and contract. */
    method FinishExecution(a: Arrival)
      requires Shaped() && phase == Calling && record != null && !a.raises
      modifies this`phase, this`reply, record, contract
      ensures Shaped() && Abs() == old(Abs()).(executed := true, phase := Audit)
      ensures reply == Some(a)
      ensures record.executionResult == Some(!a.mcpError) && contract.executionSuccess == Some(!a.mcpError)
    {
      RecordReply(a);
      phase := Audit;
    }

    method RecordReply(a: Arrival)
      requires Shaped() && contract != null && record != null && !a.raises
      modifies this`reply, record, contract
      ensures Shaped() && Abs() == old(Abs()).(executed := true)
      ensures reply == Some(a)
      ensures record.executionResult == Some(!a.mcpError) && contract.executionSuccess == Some(!a.mcpError)
    {
      reply := Some(a);
      if a.mcpError {
        contract.executionSuccess := Some(false);
        store.SetExecutionResult(id, false);
      } else {
        contract.executionSuccess := Some(true);
        store.SetExecutionResult(id, true);
      }
    }

    // ----- the pipeline: nodes with their suspension points -----

    /** The pipeline stands where some run of the step system stands. */
    ghost predicate Ready()
      reads this, store, store.records.Values, record, proxyContract, contract
    {
      Shaped() && Reachable(cfg, Abs())
    }

    /** The status a finished pipeline leaves on the record: FAILED, or what the contract filed there says. */
    ghost predicate StatusShown()
      reads this, record, contract
    {
      record != null && contract != null ==>
        if phase == Failed then record.status == FAILED
        else record.contract == contract && record.status == FinalStatus(contract.approvalState)
    }

    method Await() returns (a: Arrival)
      requires Ready()
      modifies this`decisions, this`arrivals, this`now, record, proxyContract, contract
      ensures Ready() && OnlyReviewsMoved(old(Abs()), Abs()) && old(now) <= now
      ensures a == ArrivalAt(old(arrivals), 0) && arrivals == Rest(old(arrivals))
      ensures Budget() <= old(Budget())
    {
      hide Reachable;
      ghost var s := Abs();
      a := Suspend();
      PostsAreReachable(cfg, s, a.posts);
    }

    /** asyncio.sleep between two polls. */
    method Sleep()
      requires Ready()
      modifies this`decisions, this`arrivals, this`now, record, proxyContract, contract
      ensures Ready() && OnlyReviewsMoved(old(Abs()), Abs()) && old(now) + POLL_INTERVAL <= now
      ensures Budget() <= old(Budget())
    {
      hide Reachable;
      var start := now;
      var _ := Await();
      if now < start + POLL_INTERVAL {
        now := start + POLL_INTERVAL;
      }
    }

    /** An exception leaves the graph; the pipeline only reports FAILED. */
    method Fail()
      requires Ready() && Running(Abs()) && phase != Intake
      modifies this`phase, this`statuses, record
      ensures Ready() && Abs() == old(Abs()).(phase := Failed)
      ensures StatusShown()
    {
      hide Reachable;
      CrashIsReachable(cfg, Abs());
      phase := Failed;
      ShowStatus(FAILED);
    }

    ghost method PassNode()
      requires Ready() && (phase == Analysis || phase == ContextSim)
      modifies this`phase
      ensures Ready() && phase == if old(phase) == Analysis then ContextSim else Assembly
    {
      hide Reachable;
      AdvanceIsReachable(cfg, Abs());
      phase := if phase == Analysis then ContextSim else Assembly;
    }

    /** ANALYSIS, CONTEXT_AND_SIM and CONTRACT: three awaits, each of which may raise. */
    method RunAgents() returns (ok: bool)
      requires Ready() && phase == Analysis
      modifies this`statuses, this`phase, this`decisions, this`arrivals, this`now, record, proxyContract, contract
      ensures Ready() && phase == (if ok then Assembly else Failed) && analyses == old(analyses)
      ensures !ok ==> StatusShown()
      ensures Budget() <= old(Budget())
    {
      hide Reachable;
      for i := 0 to 3
        invariant Ready() && phase == (if i == 0 then Analysis else if i == 1 then ContextSim else Assembly)
        invariant analyses == old(analyses)
        invariant Budget() <= old(Budget())
      {
        var a := Await();
        if a.raises {
          Fail();
          return false;
        }
        if i < 2 {
          PassNode();
        }
      }
      return true;
    }

    /** HUMAN_REVIEW up to the poll loop. It does not start polling when a decision was already recorded. */
    method OpenReview() returns (deadline: nat, ok: bool, polling: bool)
      requires Ready() && phase == Assembly
      modifies this`statuses, this`phase, this`reading, this`decisions, this`arrivals, this`now,
               record, proxyContract, contract
      ensures Ready() && analyses == old(analyses)
      ensures phase == if !ok then Failed else if polling then Entered(deadline) else Reviewed
      ensures !ok ==> StatusShown()
      ensures Budget() <= old(Budget())
    {
      hide Reachable, Protocol.EnterReview, HonouredStatus;
      polling := true;
      deadline, ok := NotifyApprover();
      if ok {
        polling := EnterAndSave();
      }
    }

    /** The review clock starts, and the notifier is called; anything but an MCP error leaves the graph. */
    method NotifyApprover() returns (deadline: nat, ok: bool)
      requires Ready() && phase == Assembly
      modifies this`statuses, this`phase, this`reading, this`decisions, this`arrivals, this`now,
               record, proxyContract, contract
      ensures Ready() && phase == if ok then Notifying(deadline) else Failed
      ensures !ok ==> StatusShown()
      ensures Budget() <= old(Budget())
    {
      hide Reachable;
      deadline := StartReviewClock();
      var a := Await();
      ok := !a.raises;
      if a.raises {
        Fail();
      }
    }

    method StartReviewClock() returns (deadline: nat)
      requires Ready() && phase == Assembly
      modifies this`phase, this`reading
      ensures Ready() && phase == Notifying(deadline)
    {
      hide Reachable;
      deadline := now + cfg.timeout;
      StartIsReachable(cfg, Abs(), now);
      reading, phase := now, Notifying(deadline);
    }

    method EnterAndSave() returns (polling: bool)
      requires Ready() && phase.Notifying?
      modifies this`statuses, this`phase, this`decisions, this`arrivals, this`now, record, proxyContract, contract
      ensures Ready() && analyses == old(analyses)
      ensures phase == if polling then Entered(old(phase.deadline)) else Reviewed
      ensures statuses == old(statuses) +
                [if polling then PENDING_HUMAN_APPROVAL
                 else HonouredStatus(Protocol.EnterReview(old(Abs())).pipe.state)]
      ensures Budget() <= old(Budget())
    {
      hide Reachable;
      EnterIsReachable(cfg, Abs());
      var honoured := EnterReview();
      polling := !honoured;
      AnnounceReview(if honoured then HonouredStatus(contract.approvalState) else PENDING_HUMAN_APPROVAL);
    }

    /** The save is persisted, then the display status is set and persisted. */
    method AnnounceReview(status: WorkflowStatus)
      requires Ready()
      modifies this`statuses, this`decisions, this`arrivals, this`now, record, proxyContract, contract
      ensures Ready() && OnlyReviewsMoved(old(Abs()), Abs()) && Budget() <= old(Budget())
      ensures statuses == old(statuses) + [status]
    {
      hide Reachable;
      var _ := Await();
      ShowStatus(status);
      var _ := Await();
    }

    /** The loop test holds: sleep until the next poll. */
    method SleepUntilPoll(deadline: nat)
      requires Ready() && AtLoopTest(Abs(), deadline, now) && now < deadline
      modifies this`phase, this`reading, this`decisions, this`arrivals, this`now, record, proxyContract, contract
      ensures Ready() && phase == Sleeping(deadline, old(now)) && old(now) + POLL_INTERVAL <= now
      ensures Budget() <= old(Budget())
    {
      hide Reachable;
      LoopTestIsReachable(cfg, Abs(), deadline, now);
      reading, phase := now, Sleeping(deadline, now);
      Sleep();
    }

    /** One poll: leave the loop when the record is gone or decided. */
    method CheckRecord(ghost deadline: nat) returns (waiting: bool)
      requires Ready() && phase.Sleeping? && phase.deadline == deadline && phase.since + POLL_INTERVAL <= now
      modifies this`phase, this`reading, contract
      ensures Ready()
      ensures if waiting then AtLoopTest(Abs(), deadline, now) else phase == Reviewed
    {
      hide Reachable;
      ghost var s := Abs();
      var current := store.Get(id);
      if current == null {
        PollIsReachable(cfg, s, now);
        reading, phase := now, Reviewed;
        return false;
      }
      if current.contract.approvalState != PENDING {
        PollIsReachable(cfg, s, now);
        TakeDecision();
        return false;
      }
      return true;
    }

    /** The poll loop: `waiting` when it ends because the deadline has passed. */
    method PollUntil(deadline: nat) returns (waiting: bool)
      requires Ready() && phase == Entered(deadline)
      modifies this`phase, this`reading, this`decisions, this`arrivals, this`now, record, proxyContract, contract
      ensures Ready() && analyses == old(analyses)
      ensures if waiting then AtLoopTest(Abs(), deadline, now) && deadline <= now else phase == Reviewed
      ensures Budget() <= old(Budget())
    {
      hide Reachable;
      waiting := true;
      while waiting && now < deadline
        invariant Ready() && analyses == old(analyses)
        invariant if waiting then AtLoopTest(Abs(), deadline, now) else phase == Reviewed
        invariant Budget() <= old(Budget())
        decreases waiting, deadline - now
      {
        SleepUntilPoll(deadline);
        waiting := CheckRecord(deadline);
      }
    }

    /** run_human_review: the poll loop, and its else branch when the deadline passes. */
    method RunHumanReview() returns (ok: bool)
      requires Ready() && phase == Assembly
      modifies this`statuses, this`phase, this`reading, this`decisions, this`arrivals, this`now,
               record, proxyContract, contract
      ensures Ready() && phase == (if ok then Reviewed else Failed) && analyses == old(analyses)
      ensures !ok ==> StatusShown()
      ensures Budget() <= old(Budget())
    {
      hide Reachable;
      var deadline, polling;
      deadline, ok, polling := OpenReview();
      if !ok || !polling {
        return;
      }
      var waiting := PollUntil(deadline);
      if waiting {
        LoopTestIsReachable(cfg, Abs(), deadline, now);
        TimeOut(deadline);
      }
    }

    /** run_execution. */
    method RunExecution() returns (ok: bool)
      requires Ready() && phase == Executing && calls == [] && reply == None && early == None
      modifies this`statuses, this`reply, this`early, this`phase, this`calls, this`decisions, this`arrivals, this`now,
               record, proxyContract, contract
      ensures Ready() && phase == if ok then Audit else Failed
      ensures !ok ==> StatusShown()
      ensures calls != [] <==> record != null && GuardPasses(cfg.manifest, cfg.hash)
      ensures reply == if calls == [] then None else Some(ArrivalAt(old(arrivals), 0))
      ensures early == if ok && calls == [] then Some(false) else None
      ensures ExecutionSettled(ok)
    {
      hide Reachable, GuardPasses, TargetRequest;
      NotYetExecuted(cfg, Abs());
      ExecuteIsReachable(cfg, Abs());
      var called := StartExecution();
      if called {
        ok := TakeReply();
      } else {
        ok := record != null;
      }
    }

    /** The target call is in flight: it comes back, or raises. */
    method TakeReply() returns (ok: bool)
      requires Ready() && phase == Calling && reply == None
      modifies this`statuses, this`reply, this`phase, this`decisions, this`arrivals, this`now,
               record, proxyContract, contract
      ensures Ready() && phase == if ok then Audit else Failed
      ensures !ok ==> StatusShown()
      ensures reply == Some(ArrivalAt(old(arrivals), 0)) && (ok ==> Recorded(reply).Some?)
    {
      hide Reachable;
      var a := Await();
      if a.raises {
        LoseReply(a);
        ok := false;
      } else {
        ReplyIsReachable(cfg, Abs());
        FinishExecution(a);
        ok := true;
      }
    }

    method LoseReply(a: Arrival)
      requires Ready() && phase == Calling && reply == None && a.raises
      modifies this`statuses, this`reply, this`phase, record
      ensures Ready() && phase == Failed && StatusShown() && reply == Some(a)
    {
      hide Reachable;
      Fail();
      reply := Some(a);
    }

    /** The route out of HUMAN_REVIEW. */
    method LeaveReview() returns (state: ApprovalState)
      requires Ready() && phase == Reviewed
      modifies this`phase, this`analyses
      ensures Ready() && phase == RouteFromHumanReview(state)
      ensures analyses == old(analyses) + if state == MODIFIED then 1 else 0
    {
      hide Reachable;
      RouteIsReachable(cfg, Abs());
      state := contract.approvalState;
      phase := RouteFromHumanReview(state);
      if state == MODIFIED {
        analyses := analyses + 1;
      }
    }

    /** AUDIT, then the final sync of the proxy's background task. */
    method AuditAndSync()
      requires Ready() && phase == Audit
      modifies this`statuses, this`phase, this`decisions, this`arrivals, this`now, record, proxyContract, contract
      ensures Ready() && (phase == Done || phase == Failed) && StatusShown()
    {
      hide Reachable;
      var a := Await();
      if a.raises {
        Fail();
        return;
      }
      CloseAudit();
      FinalSync();
      a := Await();
      ShowStatus(FinalStatus(contract.approvalState));
    }

    /** The save; the display status follows once it is persisted, from what the contract then says. */
    method FinalSync()
      requires Ready() && phase == Syncing
      modifies this`phase, record, contract
      ensures Ready() && phase == Done && (record != null ==> record.contract == contract)
    {
      hide Reachable;
      FinishIsReachable(cfg, Abs());
      SaveContract();
      phase := Done;
    }

    ghost method CloseAudit()
      requires Ready() && phase == Audit
      modifies this`phase
      ensures Ready() && phase == Syncing
    {
      hide Reachable;
      FinishIsReachable(cfg, Abs());
      phase := Syncing;
    }

    /** INTAKE and RISK_GATE. */
    method RunFrontNodes() returns (analysed: bool, ok: bool)
      requires Ready() && phase == Intake && Seeds(cfg, id) && Outcome() == None
      modifies this`statuses, this`gate, this`contract, this`phase, this`analyses, this`decisions, this`arrivals,
               this`now, record, proxyContract
      ensures Ready() && fresh(contract)
      ensures phase == if !ok then Failed else if analysed then Analysis else Audit
      ensures !ok ==> StatusShown()
      ensures ok ==> gate == Some(ArrivalAt(old(arrivals), 0).gate)
      ensures ok ==> (analysed <==> !gate.value.hardViolation && !HarmlessRead(gate.value))
      ensures ok ==> analyses == old(analyses) + if analysed then 1 else 0
    {
      hide Reachable, HarmlessRead;
      ReachableFacts(cfg, Abs());
      StepIsReachable(cfg, Abs(), Seed);
      RunIntake();
      analysed, ok := RunGate();
    }

    /** RISK_GATE: its tools answer, or raise. */
    method RunGate() returns (analysed: bool, ok: bool)
      requires Ready() && phase == Gate
      modifies this`statuses, this`gate, this`phase, this`analyses, this`decisions, this`arrivals, this`now,
               record, proxyContract, contract
      ensures Ready() && phase == if !ok then Failed else if analysed then Analysis else Audit
      ensures !ok ==> StatusShown()
      ensures ok ==> gate == Some(ArrivalAt(old(arrivals), 0).gate)
      ensures ok ==> (analysed <==> !gate.value.hardViolation && !HarmlessRead(gate.value))
      ensures ok ==> analyses == old(analyses) + if analysed then 1 else 0
    {
      hide Reachable;
      var a := Await();
      ok, analysed := !a.raises, false;
      if a.raises {
        Fail();
      } else {
        StepIsReachable(cfg, Abs(), Gated(a.gate));
        FinishGate(a.gate);
        analysed := RouteFromRiskGate(a.gate) == Analysis;
      }
    }

    /** ANALYSIS to HUMAN_REVIEW, again for every MODIFY. Only finitely many decisions arrive, so it ends. */
    method RunRounds() returns (state: ApprovalState, ok: bool)
      requires Ready() && phase == Analysis
      modifies this`statuses, this`phase, this`reading, this`analyses, this`decisions, this`arrivals, this`now,
               record, proxyContract, contract
      ensures Ready() && phase == if ok then RouteFromHumanReview(state) else Failed
      ensures ok ==> state != MODIFIED
      ensures !ok ==> StatusShown()
      ensures analyses >= old(analyses)
    {
      hide Reachable;
      ghost var budget := Budget();
      state, ok := MODIFIED, true;
      while ok && state == MODIFIED
        invariant Ready() && phase == if ok then RouteFromHumanReview(state) else Failed
        invariant Budget() <= budget
        invariant !ok ==> StatusShown()
        invariant analyses >= old(analyses)
        decreases ok && state == MODIFIED, 1 + budget - analyses
      {
        AnalysesFact(cfg, Abs());
        state, ok := RunRound();
        AnalysesFact(cfg, Abs());
      }
    }

    method RunRound() returns (state: ApprovalState, ok: bool)
      requires Ready() && phase == Analysis
      modifies this`statuses, this`phase, this`reading, this`analyses, this`decisions, this`arrivals, this`now,
               record, proxyContract, contract
      ensures Ready() && phase == if ok then RouteFromHumanReview(state) else Failed
      ensures ok && state == MODIFIED ==> analyses == old(analyses) + 1
      ensures analyses >= old(analyses)
      ensures !ok ==> StatusShown()
      ensures Budget() <= old(Budget())
    {
      hide Reachable;
      state := REJECTED;
      ok := RunAgents();
      if ok {
        ok := RunHumanReview();
      }
      if ok {
        state := LeaveReview();
      }
    }

    /** What is known of EXECUTION behind it; `ok` when no exception has left it. */
    ghost predicate ExecutionSettled(ok: bool)
      reads this`calls, this`reply, this`early
    {
      && (calls == [] ==> reply == None)
      && (calls != [] && ok ==> Recorded(reply).Some?)
      && (early == None || (early == Some(false) && calls == [] && !GuardPasses(cfg.manifest, cfg.hash)))
    }

    /** The graph, from INTAKE to AUDIT. */
    method RunGraph()
      requires Ready() && phase == Intake && Seeds(cfg, id) && reply == None && early == None
      modifies this, record, proxyContract
      ensures Ready() && (phase == Done || phase == Failed) && StatusShown()
      ensures phase == Done ==> gate == Some(ArrivalAt(old(arrivals), 0).gate)
      ensures phase == Done ==> (analyses > 0 <==> !gate.value.hardViolation && !HarmlessRead(gate.value))
      ensures ExecutionSettled(phase == Done)
    {
      hide Reachable, HarmlessRead, GuardPasses;
      var ok := RunToAudit();
      if ok {
        AuditAndSync();
      }
    }

    /** Everything before AUDIT. */
    method RunToAudit() returns (ok: bool)
      requires Ready() && phase == Intake && Seeds(cfg, id) && reply == None && early == None
      modifies this, record, proxyContract
      ensures Ready() && phase == if ok then Audit else Failed
      ensures contract != null && fresh(contract)
      ensures !ok ==> StatusShown()
      ensures ok ==> gate == Some(ArrivalAt(old(arrivals), 0).gate)
      ensures ok ==> (analyses > 0 <==> !gate.value.hardViolation && !HarmlessRead(gate.value))
      ensures ExecutionSettled(ok)
    {
      hide Reachable, HarmlessRead, GuardPasses;
      AnalysesFitFact(cfg, Abs());
      NotYetExecuted(cfg, Abs());
      var analysed;
      analysed, ok := RunFrontNodes();
      if ok && analysed {
        ok := RunAnalysed();
      }
    }

    /** From ANALYSIS to the end of EXECUTION. */
    method RunAnalysed() returns (ok: bool)
      requires Ready() && phase == Analysis && calls == [] && reply == None && early == None
      modifies this`statuses, this`reply, this`early, this`phase, this`calls, this`decisions, this`arrivals, this`now,
               this`reading, this`analyses, record, proxyContract, contract
      ensures Ready() && phase == if ok then Audit else Failed
      ensures !ok ==> StatusShown()
      ensures analyses >= old(analyses)
      ensures ExecutionSettled(ok)
    {
      hide Reachable, GuardPasses;
      var state;
      state, ok := RunRounds();
      if ok && state == APPROVED {
        ok := RunExecution();
      }
    }

    /** The whole background task. For every schedule of arrivals it ends, is a run of the step system,
        and so calls the target at most once, and only for a record whose last accepted decision is APPROVE. */
    method RunPipeline()
      requires Ready() && phase == Intake && Seeds(cfg, id) && reply == None && early == None
      modifies this, record, proxyContract
      ensures Ready() && (phase == Done || phase == Failed) && StatusShown()
      ensures |calls| <= 1
      ensures calls != [] ==> record != null && decisions != [] && decisions[|decisions| - 1].decision == APPROVE
      ensures ModifiesThenOne(decisions)
      ensures analyses <= 1 + Modifies(decisions)
      ensures phase == Done ==> gate == Some(ArrivalAt(old(arrivals), 1).gate)
      ensures phase == Done ==> (analyses > 0 <==> !gate.value.hardViolation && !HarmlessRead(gate.value))
      ensures record != null ==> record.executionResult == Recorded(reply)
      ensures contract != null && contract.executionSuccess == Outcome()
      ensures ExecutionSettled(phase == Done)
    {
      hide Reachable, HarmlessRead, GuardPasses;
      ShowStatus(RUNNING);
      var _ := Await();
      RunGraph();
      SafetyFacts(cfg, Abs());
    }
  }

  // ----- the same moves on values -----

  /** Nothing but the two contracts and the decisions differs. */
  predicate OnlyReviewsMoved(s: Sys, t: Sys) {
    && t.present == s.present
    && t.holder == s.holder
    && t.executed == s.executed
    && t.clock == s.clock
    && t.phase == s.phase
    && t.calls == s.calls
    && t.analyses == s.analyses
  }

  lemma {:induction false} PostsAreReachable(cfg: Config, s: Sys, posts: seq<DecisionPost>)
    requires Reachable(cfg, s)
    ensures Reachable(cfg, PostAll(s, posts)) && OnlyReviewsMoved(s, PostAll(s, posts))
    ensures |PostAll(s, posts).decisions| <= |s.decisions| + |posts|
  {
    if posts != [] {
      var n := |posts| - 1;
      PostsAreReachable(cfg, s, posts[..n]);
      StepIsReachable(cfg, PostAll(s, posts[..n]), Post(posts[n]));
    }
  }

  /** The poll loop condition is about to be evaluated: for the first time, or right after a poll that found nothing. */
  predicate AtLoopTest(s: Sys, deadline: nat, now: nat) {
    && s.clock <= now
    && (|| s.phase == Entered(deadline)
        || (&& s.phase.Sleeping? && s.phase.deadline == deadline && s.phase.since + POLL_INTERVAL <= now
            && s.present && Stored(s).state == PENDING))
  }

  lemma LoopTestIsReachable(cfg: Config, s: Sys, deadline: nat, now: nat)
    requires Reachable(cfg, s) && AtLoopTest(s, deadline, now)
    ensures Reachable(cfg, TestDeadline(s, deadline, now))
  {
    StepIsReachable(cfg, s, if s.phase.Entered? then FirstTest(now) else Poll(now));
  }

  lemma StartIsReachable(cfg: Config, s: Sys, now: nat)
    requires Reachable(cfg, s) && s.phase == Assembly && s.clock <= now
    ensures Reachable(cfg, s.(clock := now, phase := Notifying(now + cfg.timeout)))
  {
    StepIsReachable(cfg, s, StartReview(now));
  }

  lemma EnterIsReachable(cfg: Config, s: Sys)
    requires Reachable(cfg, s) && s.phase.Notifying?
    ensures Reachable(cfg, Protocol.EnterReview(s))
  {
    StepIsReachable(cfg, s, Enter);
  }

  lemma CrashIsReachable(cfg: Config, s: Sys)
    requires Reachable(cfg, s) && Running(s)
    ensures Reachable(cfg, s.(phase := Failed))
  {
    StepIsReachable(cfg, s, Crash);
  }

  lemma AdvanceIsReachable(cfg: Config, s: Sys)
    requires Reachable(cfg, s) && (s.phase == Analysis || s.phase == ContextSim)
    ensures Reachable(cfg, s.(phase := if s.phase == Analysis then ContextSim else Assembly))
  {
    StepIsReachable(cfg, s, Advance);
  }

  lemma PollIsReachable(cfg: Config, s: Sys, now: nat)
    requires Reachable(cfg, s) && s.phase.Sleeping? && s.clock <= now && s.phase.since + POLL_INTERVAL <= now
    ensures Reachable(cfg, PollOnce(s, now))
  {
    StepIsReachable(cfg, s, Poll(now));
  }

  lemma ExecuteIsReachable(cfg: Config, s: Sys)
    requires Reachable(cfg, s) && s.phase == Executing
    ensures Reachable(cfg, Protocol.RunExecution(cfg, s))
  {
    StepIsReachable(cfg, s, Execute);
  }

  lemma ReplyIsReachable(cfg: Config, s: Sys)
    requires Reachable(cfg, s) && s.phase == Calling
    ensures Reachable(cfg, s.(executed := true, phase := Audit)) && s.present
  {
    StepIsReachable(cfg, s, TargetReply);
    ReachableFacts(cfg, s);
  }

  lemma RouteIsReachable(cfg: Config, s: Sys)
    requires Reachable(cfg, s) && s.phase == Reviewed
    ensures Reachable(cfg, EnterNode(s, RouteFromHumanReview(s.pipe.state)))
  {
    StepIsReachable(cfg, s, Route);
  }

  lemma FinishIsReachable(cfg: Config, s: Sys)
    requires Reachable(cfg, s)
    ensures s.phase == Audit ==> Reachable(cfg, s.(phase := Syncing))
    ensures s.phase == Syncing ==> Reachable(cfg, SyncContract(s).(phase := Done))
  {
    if s.phase == Audit {
      StepIsReachable(cfg, s, Audited);
    } else if s.phase == Syncing {
      StepIsReachable(cfg, s, Sync);
    }
  }

  lemma {:induction false} ModifiesAtMost(ds: seq<DecisionPost>)
    ensures Modifies(ds) <= |ds|
  {
    if ds != [] {
      ModifiesAtMost(ds[..|ds| - 1]);
    }
  }

  lemma AnalysesFact(cfg: Config, s: Sys)
    requires Reachable(cfg, s)
    ensures s.analyses <= 1 + Modifies(s.decisions) <= 1 + |s.decisions|
  {
    var ss, es :| IsRun(cfg, ss, es) && ss[|es|] == s;
    AnalysesAreBounded(cfg, ss, es, |es|);
    ModifiesAtMost(s.decisions);
  }

  lemma ReachableFacts(cfg: Config, s: Sys)
    requires Reachable(cfg, s)
    ensures Inv(s)
  {
    var ss, es :| IsRun(cfg, ss, es) && ss[|es|] == s;
    RunKeepsInv(cfg, ss, es, |es|);
  }

  lemma NotYetExecuted(cfg: Config, s: Sys)
    requires Reachable(cfg, s)
    ensures s.phase == Executing ==> !s.executed
    ensures s.phase == Intake ==> s.calls == []
  {
    ReachableFacts(cfg, s);
  }

  lemma AnalysesFitFact(cfg: Config, s: Sys)
    requires Reachable(cfg, s)
    ensures AnalysesFit(s)
  {
    var ss, es :| IsRun(cfg, ss, es) && ss[|es|] == s;
    AnalysedIffGateChose(cfg, ss, es, |es|);
  }

  /** What the whole-run theorems say of the state a run ends in. */
  lemma SafetyFacts(cfg: Config, s: Sys)
    requires Reachable(cfg, s)
    ensures |s.calls| <= 1
    ensures s.calls != [] ==> s.present && s.decisions != [] && s.decisions[|s.decisions| - 1].decision == APPROVE
    ensures ModifiesThenOne(s.decisions)
    ensures s.analyses <= 1 + Modifies(s.decisions)
  {
    ReachableFacts(cfg, s);
    AnalysesFact(cfg, s);
  }

  // ----- from the intercepted call to the end -----

  /** What the whole-run theorems say when the proxy built the manifest. */
  lemma ProxyFacts(c: ToolCall, id: string, cfg: Config, s: Sys)
    requires !Blank(c.sql) && Reachable(cfg, s)
    requires cfg.manifest == ProxyManifest(c, id, cfg.hash) && cfg.rawSql == c.sql && cfg.tenant == c.tenantId
    ensures forall k | 0 <= k < |s.calls| :: s.calls[k] == TargetCall(c.targetUrl, c.toolName, c.sql, c.tenantId)
    ensures s.phase == Done && s.present && Stored(s).state == APPROVED ==> |s.calls| == if s.analyses > 0 then 1 else 0
    ensures s.calls != [] ==> Stored(s).state == APPROVED
    ensures s.phase == Done && s.present && s.analyses > 0 ==> Stored(s).state != PENDING && Stored(s).state != MODIFIED
  {
    var ss, es :| IsRun(cfg, ss, es) && ss[|es|] == s;
    ProxyManifestBindsTheCall(c, id, cfg.hash, cfg.rawSql, cfg.defaultUrl);
    ProxyRunSendsTheInterceptedCall(c, id, cfg, ss, es, |es|);
    RunKeepsInv(cfg, ss, es, |es|);
    RunKeepsCounted(cfg, ss, es, |es|);
    if s.phase == Done && s.present && Stored(s).state == APPROVED {
      ApprovedAndDoneMeansExecutedIffAnalysed(cfg, ss, es, |es|);
    }
  }

  lemma ProxyManifestSeeds(c: ToolCall, id: string, cfg: Config)
    requires !Blank(c.sql) && id != ""
    requires cfg.manifest == ProxyManifest(c, id, cfg.hash) && cfg.rawSql == c.sql && cfg.tenant == c.tenantId
    ensures Seeds(cfg, id) && GuardPasses(cfg.manifest, cfg.hash)
  {
    ProxyManifestBindsTheCall(c, id, cfg.hash, cfg.rawSql, cfg.defaultUrl);
    assert cfg.manifest["tenant_id"] == ToDict(c)["tenant_id"];
  }

  /** The proxy's handling of one tool call: for every schedule of decisions, delays and failures the workflow ends;
      the target gets at most one request, the intercepted call itself; it gets one only if the last accepted
      decision is APPROVE; and a run that ends APPROVED sent it unless RISK_GATE diverted the run. */
  method HandleToolCall(
    store: WorkflowStore, c: ToolCall, id: string, hash: Hash, timeout: nat, defaultUrl: string, arrivals: seq<Arrival>)
    returns (task: PipelineTask)
    requires store.Valid() && id != "" && !Blank(c.sql)
    modifies store
    ensures fresh(task) && (task.phase == Done || task.phase == Failed)
    ensures task.calls == [] || task.calls == [TargetCall(c.targetUrl, c.toolName, c.sql, c.tenantId)]
    ensures task.calls != [] ==> task.decisions != [] && task.decisions[|task.decisions| - 1].decision == APPROVE
    ensures store.Valid() && id in store.records
    ensures task.phase == Done && store.records[id].contract.approvalState == APPROVED ==>
              (task.calls != [] <==> task.analyses > 0)
    ensures store.records[id].status ==
              if task.phase == Failed then FAILED else FinalStatus(store.records[id].contract.approvalState)
    ensures task.phase == Done ==>
              && task.gate.Some?
              && (task.analyses > 0 <==> !task.gate.value.hardViolation && !HarmlessRead(task.gate.value))
    ensures task.phase == Done && task.analyses > 0 ==>
              && StatusStreams.Terminal(store.records[id].status)
              && (store.records[id].status == COMPLETED <==> task.calls != [])
    ensures store.records[id].executionResult == Recorded(task.reply)
    ensures task.phase == Done ==> store.records[id].contract.executionSuccess == Recorded(task.reply)
    ensures task.phase == Done ==> (task.calls != [] <==> Recorded(task.reply).Some?)
  {
    hide Reachable, ProxyManifest, Seeds, Blank, ModifiesThenOne, Modifies, Distinct, HarmlessRead, GuardPasses;
    var cfg := Config(ProxyManifest(c, id, hash), c.sql, c.tenantId, defaultUrl, hash, timeout);
    task := new PipelineTask(store, id, cfg, true, arrivals);
    InitIsReachable(cfg, task.Abs());
    ProxyManifestSeeds(c, id, cfg);
    task.RunPipeline();
    ProxyFacts(c, id, cfg, task.Abs());
  }
}
