/** The approval protocol as a step system.

    One pipeline task walks the graph; decision posts arrive between any two of its steps. A step is the
    code between two suspension points, so it is atomic. The record in the store holds either the contract
    the proxy built or the pipeline's own contract: after HUMAN_REVIEW has been entered the two are one object,
    and a decision or a timeout then writes the pipeline's contract directly. */
module Protocol {
  import opened Handoff
  import opened Manifests

  const POLL_INTERVAL: nat := 5

  datatype Config = Config(
    manifest: Manifest,
    rawSql: string,
    tenant: string,
    defaultUrl: string,
    hash: Hash,
    timeout: nat)

  /** Which contract object the record refers to. */
  datatype Holder = ProxyContract | PipelineContract

  datatype Phase =
    | Intake
    | Gate
    | Analysis
    | ContextSim
    | Assembly
    | Notifying(deadline: nat)              // in run_human_review, awaiting the notifier
    | Entered(deadline: nat)                // contract synced, the loop not yet entered
    | Sleeping(deadline: nat, since: nat)   // in the poll loop
    | Reviewed                              // run_human_review has returned
    | Executing
    | Calling                               // the target call is in flight
    | Audit
    | Syncing
    | Done
    | Failed

  /** `decisions`, `calls` and `analyses` record what happened; no step reads them. */
  datatype Sys = Sys(
    present: bool,
    holder: Holder,
    proxy: Verdict,
    pipe: Verdict,
    executed: bool,
    clock: nat,
    phase: Phase,
    decisions: seq<DecisionPost>,
    calls: seq<TargetCall>,
    analyses: nat)

  /** What RISK_GATE wrote: the fields its routing reads. Scores are in thousandths. */
  datatype GateOutcome = GateOutcome(
    hardViolation: bool,
    operationType: OperationType,
    violations: nat,
    riskScore: int,
    requiredTier: Option<string>)

  datatype Event =
    | Post(post: DecisionPost)
    | Seed
    | Gated(outcome: GateOutcome)
    | Advance
    | StartReview(at: nat)
    | Enter
    | FirstTest(at: nat)
    | Poll(at: nat)
    | Route
    | Execute
    | TargetReply
    | Audited
    | Sync
    | Crash

  // ----- routing guards -----

  predicate IsFastPath(g: GateOutcome) {
    && g.operationType == SELECT
    && g.violations == 0
    && g.riskScore < 300
    && (g.requiredTier == None || g.requiredTier == Some(""))
  }

  function RouteFromRiskGate(g: GateOutcome): Phase {
    if g.hardViolation || IsFastPath(g) then Audit else Analysis
  }

  function RouteFromHumanReview(state: ApprovalState): Phase {
    match state
    case APPROVED => Executing
    case MODIFIED => Analysis
    case _ => Audit
  }

  // ----- steps -----

  /** The contract the record holds, as every reader of the store sees it. */
  function Stored(s: Sys): Verdict {
    if s.holder == ProxyContract then s.proxy else s.pipe
  }

  predicate Accepts(s: Sys) {
    s.present && Stored(s).state == PENDING
  }

  function PostDecision(s: Sys, p: DecisionPost): Sys {
    if !Accepts(s) then s
    else if s.holder == ProxyContract then
      s.(proxy := Decide(s.proxy, p), decisions := s.decisions + [p])
    else
      s.(pipe := Decide(s.pipe, p), decisions := s.decisions + [p])
  }

  /** update_contract with the pipeline's contract. */
  function SyncContract(s: Sys): Sys {
    if s.present then s.(pipe := Merge(Stored(s), s.pipe), holder := PipelineContract) else s
  }

  /** HUMAN_REVIEW on entry: a MODIFY is reset, a decision already recorded is honoured at once. */
  function PrepareReview(s: Sys): Sys
    requires s.phase.Notifying?
  {
    if s.pipe.state == MODIFIED then s.(pipe := s.pipe.(state := PENDING), phase := Entered(s.phase.deadline))
    else if s.present && Stored(s).state != PENDING then s.(pipe := Stored(s), phase := Reviewed)
    else s.(phase := Entered(s.phase.deadline))
  }

  function EnterReview(s: Sys): Sys
    requires s.phase.Notifying?
  {
    SyncContract(PrepareReview(s))
  }

  /** The loop test: sleep again, or take the timeout branch. */
  function TestDeadline(s: Sys, deadline: nat, at: nat): Sys {
    if at < deadline then s.(clock := at, phase := Sleeping(deadline, at))
    else s.(clock := at, pipe := Expire(s.pipe, at), phase := Reviewed)
  }

  function PollOnce(s: Sys, at: nat): Sys
    requires s.phase.Sleeping?
  {
    if !s.present then s.(clock := at, phase := Reviewed)
    else if Stored(s).state != PENDING then s.(clock := at, pipe := Stored(s), phase := Reviewed)
    else TestDeadline(s, s.phase.deadline, at)
  }

  predicate CallsTarget(cfg: Config, s: Sys, e: Event) {
    e.Execute? && s.present && !s.executed && GuardPasses(cfg.manifest, cfg.hash)
  }

  function RunExecution(cfg: Config, s: Sys): Sys {
    if !s.present then s.(phase := Failed)
    else if s.executed || !GuardPasses(cfg.manifest, cfg.hash) then s.(phase := Audit)
    else s.(phase := Calling, calls := s.calls + [TargetRequest(cfg.manifest, cfg.rawSql, cfg.tenant, cfg.defaultUrl)])
  }

  function EnterNode(s: Sys, next: Phase): Sys {
    s.(phase := next, analyses := s.analyses + if next == Analysis then 1 else 0)
  }

  predicate Running(s: Sys) {
    s.phase != Done && s.phase != Failed
  }

  predicate Enabled(s: Sys, e: Event) {
    match e
    case Post(_) => true
    case Seed => s.phase == Intake
    case Gated(_) => s.phase == Gate
    case Advance => s.phase == Analysis || s.phase == ContextSim
    case StartReview(at) => s.phase == Assembly && s.clock <= at
    case Enter => s.phase.Notifying?
    case FirstTest(at) => s.phase.Entered? && s.clock <= at
    case Poll(at) => s.phase.Sleeping? && s.phase.since + POLL_INTERVAL <= at && s.clock <= at
    case Route => s.phase == Reviewed
    case Execute => s.phase == Executing
    case TargetReply => s.phase == Calling
    case Audited => s.phase == Audit
    case Sync => s.phase == Syncing
    case Crash => Running(s)
  }

  function Next(cfg: Config, s: Sys, e: Event): Sys
    requires Enabled(s, e)
  {
    match e
    case Post(p) => PostDecision(s, p)
    case Seed => s.(pipe := UNDECIDED, phase := Gate)
    case Gated(g) =>
      var s1 := if g.hardViolation then s.(pipe := s.pipe.(state := AUTO_REJECTED)) else s;
      EnterNode(s1, RouteFromRiskGate(g))
    case Advance => s.(phase := if s.phase == Analysis then ContextSim else Assembly)
    case StartReview(at) => s.(clock := at, phase := Notifying(at + cfg.timeout))
    case Enter => EnterReview(s)
    case FirstTest(at) => TestDeadline(s, s.phase.deadline, at)
    case Poll(at) => PollOnce(s, at)
    case Route => EnterNode(s, RouteFromHumanReview(s.pipe.state))
    case Execute => RunExecution(cfg, s)
    case TargetReply => s.(executed := true, phase := Audit)
    case Audited => s.(phase := Syncing)
    case Sync => SyncContract(s).(phase := Done)
    case Crash => s.(phase := Failed)
  }

  /** The system when the proxy has created the record (or, with `present` false, when nothing did). */
  ghost predicate Init(s: Sys) {
    && s.holder == ProxyContract
    && s.proxy == UNDECIDED
    && s.pipe == UNDECIDED
    && s.phase == Intake
    && !s.executed
    && s.decisions == []
    && s.calls == []
    && s.analyses == 0
  }

  /** A run: every interleaving of pipeline steps and decision posts is one. */
  ghost predicate IsRun(cfg: Config, ss: seq<Sys>, es: seq<Event>) {
    && |ss| == |es| + 1
    && Init(ss[0])
    && forall i | 0 <= i < |es| :: Enabled(ss[i], es[i]) && ss[i + 1] == Next(cfg, ss[i], es[i])
  }

  /** Some run leads to `s`. */
  ghost predicate Reachable(cfg: Config, s: Sys) {
    exists ss, es :: IsRun(cfg, ss, es) && ss[|es|] == s
  }

  lemma InitIsReachable(cfg: Config, s: Sys)
    requires Init(s)
    ensures Reachable(cfg, s)
  {
    assert IsRun(cfg, [s], []);
  }

  lemma StepIsReachable(cfg: Config, s: Sys, e: Event)
    requires Reachable(cfg, s) && Enabled(s, e)
    ensures Reachable(cfg, Next(cfg, s, e))
  {
    var ss, es :| IsRun(cfg, ss, es) && ss[|es|] == s;
    var ss', es' := ss + [Next(cfg, s, e)], es + [e];
    assert IsRun(cfg, ss', es') && ss'[|es'|] == Next(cfg, s, e);
  }
}
