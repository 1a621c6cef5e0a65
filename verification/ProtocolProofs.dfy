/** What every run of the approval protocol keeps. */
module ProtocolProofs {
  import opened Handoff
  import opened Manifests
  import opened Protocol

  // ----- the inductive invariant -----

  predicate Analysing(p: Phase) {
    p == Analysis || p == ContextSim || p == Assembly || p.Notifying?
  }

  predicate Waiting(p: Phase) {
    p.Entered? || p.Sleeping?
  }

  /** How the pipeline's contract, the record and the phase hang together. */
  predicate Linked(s: Sys) {
    && (!s.present ==> s.holder == ProxyContract)
    && (s.proxy.state == PENDING || Decided(s.proxy.state))
    && (s.phase == Intake || s.phase == Gate ==> s.holder == ProxyContract && s.pipe.state == PENDING)
    && (Analysing(s.phase) ==> s.pipe.state == if s.holder == ProxyContract then PENDING else MODIFIED)
    && (s.present && (Waiting(s.phase) || s.phase == Reviewed) ==> s.holder == PipelineContract)
    && (Waiting(s.phase) ==> s.pipe.state == PENDING || (s.present && Decided(s.pipe.state)))
    && (s.phase == Reviewed ==>
          if s.present then s.pipe.state != PENDING else s.pipe.state != APPROVED && s.pipe.state != MODIFIED)
    && (s.present && s.holder == ProxyContract && (s.phase == Audit || s.phase == Syncing)
        ==> !Decided(s.pipe.state))
    && (s.phase == Executing || s.phase == Calling ==>
          s.present && s.holder == PipelineContract && s.pipe.state == APPROVED)
  }

  /** All decisions but the last are MODIFY. */
  predicate ModifiesThenOne(ds: seq<DecisionPost>) {
    forall i | 0 <= i < |ds| - 1 :: ds[i].decision == MODIFY
  }

  predicate AllModify(ds: seq<DecisionPost>) {
    forall i | 0 <= i < |ds| :: ds[i].decision == MODIFY
  }

  /** The fields of `v` are those posted by `p`. */
  predicate Carries(v: Verdict, p: DecisionPost) {
    && v.state == DecidedState(p.decision)
    && v.humanDecision == Some(p.decision)
    && v.reason == Some(p.reason)
    && v.timestamp == Some(p.at)
    && v.approver == Some(p.approver)
    && (p.constraints.Some? && p.constraints.value != "" ==> v.constraints == p.constraints)
  }

  predicate Decided(state: ApprovalState) {
    state == APPROVED || state == REJECTED || state == MODIFIED
  }

  /** How the stored contract and the successful decisions hang together. */
  predicate Tracked(s: Sys) {
    && ModifiesThenOne(s.decisions)
    && (Stored(s).state == PENDING ==> AllModify(s.decisions))
    && (Decided(Stored(s).state) ==> s.decisions != [] && Carries(Stored(s), s.decisions[|s.decisions| - 1]))
    && (!s.present ==> s.decisions == [])
  }

  predicate AfterCall(p: Phase) {
    p == Calling || p == Audit || p == Syncing || p == Done || p == Failed
  }

  predicate Called(s: Sys) {
    && |s.calls| <= 1
    && (s.calls != [] ==>
          && AfterCall(s.phase)
          && s.present
          && s.holder == PipelineContract
          && s.pipe.state == APPROVED)
    && (s.executed || s.phase == Calling ==> s.calls != [])
  }

  predicate Inv(s: Sys) {
    Linked(s) && Tracked(s) && Called(s)
  }

  lemma PostKeepsInv(s: Sys, p: DecisionPost)
    requires Inv(s)
    ensures Inv(PostDecision(s, p))
  {
    var t := PostDecision(s, p);
    if Accepts(s) {
      assert t.decisions[|t.decisions| - 1] == p;
      assert forall i | 0 <= i < |s.decisions| :: t.decisions[i] == s.decisions[i];
    }
  }

  /** Tracked depends only on the stored contract and the decisions, and survives a stored contract
      that moves to a state no decision gives, or from MODIFIED back to PENDING. */
  lemma TrackedMoves(s: Sys, t: Sys)
    requires Tracked(s)
    requires t.decisions == s.decisions && t.present == s.present
    requires || Stored(t) == Stored(s)
             || Stored(t).state == AUTO_REJECTED
             || Stored(t).state == TIMED_OUT
             || (Stored(t).state == PENDING && (Stored(s).state == PENDING || Stored(s).state == MODIFIED))
    ensures Tracked(t)
  {
    var n := |s.decisions|;
    if Stored(s).state == MODIFIED {
      assert s.decisions[n - 1].decision == MODIFY;
      assert AllModify(s.decisions);
    }
  }

  lemma EnterKeepsInv(s: Sys)
    requires Inv(s) && s.phase.Notifying?
    ensures Inv(EnterReview(s))
  {
    TrackedMoves(s, EnterReview(s));
  }

  lemma TestKeepsInv(s: Sys, deadline: nat, at: nat)
    requires Inv(s) && Waiting(s.phase)
    ensures Inv(TestDeadline(s, deadline, at))
  {
    TrackedMoves(s, TestDeadline(s, deadline, at));
  }

  lemma PollKeepsInv(s: Sys, at: nat)
    requires Inv(s) && s.phase.Sleeping?
    ensures Inv(PollOnce(s, at))
  {
    if s.present && Stored(s).state == PENDING {
      TestKeepsInv(s, s.phase.deadline, at);
    } else {
      TrackedMoves(s, PollOnce(s, at));
    }
  }

  lemma SyncKeepsInv(s: Sys)
    requires Inv(s) && s.phase == Syncing
    ensures Inv(SyncContract(s).(phase := Done))
  {
    TrackedMoves(s, SyncContract(s).(phase := Done));
  }

  /** The steps of the pipeline that touch neither the store nor the review. */
  lemma PrivateStepKeepsInv(cfg: Config, s: Sys, e: Event)
    requires Inv(s) && Enabled(s, e)
    requires e.Seed? || e.Advance? || e.StartReview? || e.Audited? || e.Crash?
    ensures Inv(Next(cfg, s, e))
  {
    TrackedMoves(s, Next(cfg, s, e));
  }

  lemma RoutingKeepsInv(cfg: Config, s: Sys, e: Event)
    requires Inv(s) && Enabled(s, e)
    requires e.Gated? || e.Route?
    ensures Inv(Next(cfg, s, e))
  {
    TrackedMoves(s, Next(cfg, s, e));
  }

  lemma ExecutionKeepsInv(cfg: Config, s: Sys, e: Event)
    requires Inv(s) && Enabled(s, e)
    requires e.Execute? || e.TargetReply?
    ensures Inv(Next(cfg, s, e))
  {
    TrackedMoves(s, Next(cfg, s, e));
  }

  lemma StepKeepsInv(cfg: Config, s: Sys, e: Event)
    requires Inv(s) && Enabled(s, e)
    ensures Inv(Next(cfg, s, e))
  {
    match e
    case Post(p) => PostKeepsInv(s, p);
    case Enter => EnterKeepsInv(s);
    case FirstTest(at) => TestKeepsInv(s, s.phase.deadline, at);
    case Poll(at) => PollKeepsInv(s, at);
    case Sync => SyncKeepsInv(s);
    case Execute => ExecutionKeepsInv(cfg, s, e);
    case TargetReply => ExecutionKeepsInv(cfg, s, e);
    case Seed => PrivateStepKeepsInv(cfg, s, e);
    case Gated(_) => RoutingKeepsInv(cfg, s, e);
    case Advance => PrivateStepKeepsInv(cfg, s, e);
    case StartReview(_) => PrivateStepKeepsInv(cfg, s, e);
    case Audited => PrivateStepKeepsInv(cfg, s, e);
    case Crash => PrivateStepKeepsInv(cfg, s, e);
    case Route => RoutingKeepsInv(cfg, s, e);
  }

  lemma {:induction false} RunKeepsInv(cfg: Config, ss: seq<Sys>, es: seq<Event>, i: nat)
    requires IsRun(cfg, ss, es) && i < |ss|
    ensures Inv(ss[i])
  {
    if i > 0 {
      RunKeepsInv(cfg, ss, es, i - 1);
      StepKeepsInv(cfg, ss[i - 1], es[i - 1]);
    }
  }

  // ----- execution -----

  lemma StepGrowsCalls(cfg: Config, s: Sys, e: Event)
    requires Inv(s) && Enabled(s, e) && s.calls != []
    ensures Next(cfg, s, e).calls == s.calls
    ensures Next(cfg, s, e).decisions == s.decisions
  {
  }

  lemma {:induction false} CallsAreKept(cfg: Config, ss: seq<Sys>, es: seq<Event>, i: nat, j: nat)
    requires IsRun(cfg, ss, es) && i <= j < |ss| && ss[i].calls != []
    ensures ss[j].calls == ss[i].calls && ss[j].decisions == ss[i].decisions
    decreases j
  {
    if i < j {
      CallsAreKept(cfg, ss, es, i, j - 1);
      RunKeepsInv(cfg, ss, es, j - 1);
      StepGrowsCalls(cfg, ss[j - 1], es[j - 1]);
    }
  }

  /** In every interleaving the target is called at most once. */
  lemma TargetCalledAtMostOnce(cfg: Config, ss: seq<Sys>, es: seq<Event>, i: nat, j: nat)
    requires IsRun(cfg, ss, es) && i < j < |es|
    requires CallsTarget(cfg, ss[i], es[i])
    ensures !CallsTarget(cfg, ss[j], es[j])
  {
    assert ss[i + 1] == Next(cfg, ss[i], es[i]);
    CallsAreKept(cfg, ss, es, i + 1, j);
    RunKeepsInv(cfg, ss, es, j);
  }

  /** The target is called only when the record exists, its last successful decision is APPROVE,
      and no decision is ever accepted afterwards. */
  lemma TargetCalledOnlyWhenApproved(cfg: Config, ss: seq<Sys>, es: seq<Event>, i: nat, j: nat)
    requires IsRun(cfg, ss, es) && i < j < |ss|
    requires CallsTarget(cfg, ss[i], es[i])
    ensures ss[0].present
    ensures ss[i].decisions != [] && ss[i].decisions[|ss[i].decisions| - 1].decision == APPROVE
    ensures ss[j].decisions == ss[i].decisions
  {
    RunKeepsInv(cfg, ss, es, i);
    assert ss[i + 1] == Next(cfg, ss[i], es[i]);
    CallsAreKept(cfg, ss, es, i + 1, j);
    PresenceIsFixed(cfg, ss, es, i);
  }

  lemma {:induction false} PresenceIsFixed(cfg: Config, ss: seq<Sys>, es: seq<Event>, i: nat)
    requires IsRun(cfg, ss, es) && i < |ss|
    ensures ss[i].present == ss[0].present
  {
    if i > 0 {
      PresenceIsFixed(cfg, ss, es, i - 1);
    }
  }

  /** What a finished pipeline did, when the manifest guard passes. */
  predicate Accounted(s: Sys) {
    && (s.calls != [] ==> s.analyses > 0)
    && (s.phase == Intake || s.phase == Gate ==> s.analyses == 0)
    && (Analysing(s.phase) || Waiting(s.phase) || s.phase == Reviewed || s.phase == Executing ==> s.analyses > 0)
    && (s.analyses > 0 && (s.phase == Audit || s.phase == Syncing || s.phase == Done) ==>
          && s.present == (s.holder == PipelineContract)
          && (s.pipe.state == APPROVED ==> s.calls != [])
          && (s.present ==> s.pipe.state != PENDING))
  }

  lemma {:induction false} RunIsAccounted(cfg: Config, ss: seq<Sys>, es: seq<Event>, i: nat)
    requires IsRun(cfg, ss, es) && i < |ss| && GuardPasses(cfg.manifest, cfg.hash)
    ensures Accounted(ss[i])
  {
    if i > 0 {
      RunIsAccounted(cfg, ss, es, i - 1);
      RunKeepsInv(cfg, ss, es, i - 1);
      AccountedStep(cfg, ss[i - 1], es[i - 1]);
    }
  }

  lemma AccountedStep(cfg: Config, s: Sys, e: Event)
    requires Inv(s) && Accounted(s) && Enabled(s, e) && GuardPasses(cfg.manifest, cfg.hash)
    ensures Accounted(Next(cfg, s, e))
  {
    match e
    case Post(_) =>
    case Enter => AccountedReview(cfg, s, e);
    case FirstTest(_) => AccountedReview(cfg, s, e);
    case Poll(_) => AccountedReview(cfg, s, e);
    case Sync => AccountedReview(cfg, s, e);
    case _ => AccountedPrivate(cfg, s, e);
  }

  lemma AccountedPrivate(cfg: Config, s: Sys, e: Event)
    requires Inv(s) && Accounted(s) && Enabled(s, e) && GuardPasses(cfg.manifest, cfg.hash)
    requires !e.Post? && !e.Enter? && !e.FirstTest? && !e.Poll? && !e.Sync?
    ensures Accounted(Next(cfg, s, e))
  {
    var t := Next(cfg, s, e);
    assert t.holder == s.holder && t.present == s.present;
  }

  lemma AccountedReview(cfg: Config, s: Sys, e: Event)
    requires Inv(s) && Accounted(s) && Enabled(s, e) && GuardPasses(cfg.manifest, cfg.hash)
    requires e.Enter? || e.FirstTest? || e.Poll? || e.Sync?
    ensures Accounted(Next(cfg, s, e))
  {
    assert Next(cfg, s, e).calls == s.calls && Next(cfg, s, e).analyses == s.analyses;
  }

  /** A finished workflow whose record says APPROVED has executed, exactly once, if and only if
      RISK_GATE sent it to ANALYSIS: an approval posted to a run that the gate diverts is never executed. */
  lemma ApprovedAndDoneMeansExecutedIffAnalysed(cfg: Config, ss: seq<Sys>, es: seq<Event>, i: nat)
    requires IsRun(cfg, ss, es) && i < |ss| && GuardPasses(cfg.manifest, cfg.hash)
    requires ss[i].phase == Done && ss[i].present && Stored(ss[i]).state == APPROVED
    ensures |ss[i].calls| == if ss[i].analyses > 0 then 1 else 0
    ensures ss[i].analyses > 0 <==> GateChoseAnalysis(es, i)
  {
    RunIsAccounted(cfg, ss, es, i);
    RunKeepsInv(cfg, ss, es, i);
    AnalysedIffGateChose(cfg, ss, es, i);
  }

  /** RISK_GATE has sent the run to ANALYSIS. */
  predicate GateChoseAnalysis(es: seq<Event>, i: nat)
    requires i <= |es|
  {
    exists k | 0 <= k < i :: es[k].Gated? && RouteFromRiskGate(es[k].outcome) == Analysis
  }

  /** The phases behind RISK_GATE on the way through ANALYSIS, up to the target call. */
  predicate Underway(p: Phase) {
    Analysing(p) || Waiting(p) || p == Reviewed || p == Executing || p == Calling
  }

  predicate AnalysesFit(s: Sys) {
    && (s.phase == Intake || s.phase == Gate ==> s.analyses == 0)
    && (Underway(s.phase) ==> s.analyses > 0)
  }

  lemma StepStartsAnalyses(cfg: Config, s: Sys, e: Event)
    requires Enabled(s, e) && AnalysesFit(s)
    ensures AnalysesFit(Next(cfg, s, e))
    ensures Next(cfg, s, e).analyses > 0 <==> s.analyses > 0 || (e.Gated? && RouteFromRiskGate(e.outcome) == Analysis)
  {
    hide IsFastPath;
  }

  lemma InitFits(s: Sys)
    requires Init(s)
    ensures AnalysesFit(s)
  {
  }

  lemma {:induction false} AnalysedIffGateChose(cfg: Config, ss: seq<Sys>, es: seq<Event>, i: nat)
    requires IsRun(cfg, ss, es) && i < |ss|
    ensures AnalysesFit(ss[i])
    ensures ss[i].analyses > 0 <==> GateChoseAnalysis(es, i)
  {
    hide Next, Enabled, RouteFromRiskGate, AnalysesFit;
    if i == 0 {
      InitFits(ss[0]);
    } else {
      AnalysedIffGateChose(cfg, ss, es, i - 1);
      StepStartsAnalyses(cfg, ss[i - 1], es[i - 1]);
    }
  }

  // ----- what the gate lets pass -----

  /** A read without objections and with a low score. */
  predicate HarmlessRead(g: GateOutcome) {
    && g.operationType == SELECT
    && g.violations == 0
    && g.riskScore < 300
    && g.requiredTier in {None, Some("")}
  }

  /** RISK_GATE has one outcome in a run, and is never entered again. */
  lemma {:induction false} GatedOnce(cfg: Config, ss: seq<Sys>, es: seq<Event>, k: nat, i: nat)
    requires IsRun(cfg, ss, es) && k < i < |ss| && es[k].Gated?
    ensures ss[i].phase != Intake && ss[i].phase != Gate
    ensures forall j | k < j < i :: !es[j].Gated?
    decreases i
  {
    hide Next, Enabled;
    if k + 1 < i {
      GatedOnce(cfg, ss, es, k, i - 1);
    }
    NeverBackToGate(cfg, ss[i - 1], es[i - 1]);
  }

  lemma NeverBackToGate(cfg: Config, s: Sys, e: Event)
    requires Enabled(s, e)
    ensures s.phase != Intake && s.phase != Gate ==>
              Next(cfg, s, e).phase != Intake && Next(cfg, s, e).phase != Gate && !e.Gated?
    ensures e.Gated? ==> Next(cfg, s, e).phase != Intake && Next(cfg, s, e).phase != Gate
  {
  }

  predicate PastGate(p: Phase) {
    p != Intake && p != Gate && p != Failed
  }

  lemma OnlyGatedPasses(cfg: Config, s: Sys, e: Event)
    requires Enabled(s, e) && !e.Gated? && PastGate(Next(cfg, s, e).phase)
    ensures PastGate(s.phase)
  {
  }

  /** A run that has come past RISK_GATE had an outcome there. */
  lemma {:induction false} PastGateWasGated(cfg: Config, ss: seq<Sys>, es: seq<Event>, i: nat) returns (k: nat)
    requires IsRun(cfg, ss, es) && i < |ss| && PastGate(ss[i].phase)
    ensures k < i && es[k].Gated?
  {
    hide Next, Enabled;
    assert i > 0;
    if !es[i - 1].Gated? {
      OnlyGatedPasses(cfg, ss[i - 1], es[i - 1]);
    }
    if es[i - 1].Gated? {
      k := i - 1;
    } else {
      k := PastGateWasGated(cfg, ss, es, i - 1);
    }
  }

  /** The outcome alone decides: the run is analysed if and only if there is no hard violation and it is not a harmless
      read. So nothing but a SELECT, or a hard violation, ever ends without an analysis. */
  lemma OnlyHarmlessReadsSkipAnalysis(cfg: Config, ss: seq<Sys>, es: seq<Event>, k: nat, i: nat)
    requires IsRun(cfg, ss, es) && k < i < |ss| && es[k].Gated?
    ensures ss[i].analyses == 0 <==> es[k].outcome.hardViolation || HarmlessRead(es[k].outcome)
    ensures ss[i].analyses == 0 && !es[k].outcome.hardViolation ==> es[k].outcome.operationType == SELECT
  {
    hide Next, Enabled;
    AnalysedIffGateChose(cfg, ss, es, i);
    GatedOnce(cfg, ss, es, k, i);
    forall j | 0 <= j < k
      ensures !es[j].Gated?
    {
      if es[j].Gated? {
        GatedOnce(cfg, ss, es, j, k + 1);
      }
    }
    assert GateChoseAnalysis(es, i) <==> RouteFromRiskGate(es[k].outcome) == Analysis;
  }

  /** `h` gives at least as much reason to look closer as `g`. */
  predicate NoSafer(g: GateOutcome, h: GateOutcome) {
    && (h.operationType == g.operationType || h.operationType != SELECT)
    && g.violations <= h.violations
    && g.riskScore <= h.riskScore
    && (g.requiredTier !in {None, Some("")} ==> h.requiredTier !in {None, Some("")})
  }

  /** More reason to look closer never takes a run out of the pipeline, short of a hard violation. */
  lemma GateIsMonotone(g: GateOutcome, h: GateOutcome)
    requires NoSafer(g, h) && !h.hardViolation
    ensures RouteFromRiskGate(g) == Analysis ==> RouteFromRiskGate(h) == Analysis
  {
  }

  lemma StepSendsTheRequest(cfg: Config, s: Sys, e: Event)
    requires Enabled(s, e)
    ensures var t := Next(cfg, s, e);
      || t.calls == s.calls
      || t.calls == s.calls + [TargetRequest(cfg.manifest, cfg.rawSql, cfg.tenant, cfg.defaultUrl)]
  {
  }

  lemma {:induction false} CallsAreTheRequest(cfg: Config, ss: seq<Sys>, es: seq<Event>, i: nat)
    requires IsRun(cfg, ss, es) && i < |ss|
    ensures forall k | 0 <= k < |ss[i].calls| ::
              ss[i].calls[k] == TargetRequest(cfg.manifest, cfg.rawSql, cfg.tenant, cfg.defaultUrl)
  {
    if i > 0 {
      CallsAreTheRequest(cfg, ss, es, i - 1);
      StepSendsTheRequest(cfg, ss[i - 1], es[i - 1]);
    }
  }

  /** A proxy-created run: through any number of MODIFY rounds the guard never stops an approved
      execution, and every call sends exactly the intercepted SQL, which is also the SQL that INTAKE put
      under analysis. */
  lemma ProxyRunSendsTheInterceptedCall(
    c: ToolCall, id: string, cfg: Config, ss: seq<Sys>, es: seq<Event>, i: nat)
    requires !Blank(c.sql)
    requires cfg.manifest == ProxyManifest(c, id, cfg.hash)
    requires IntakeSql(cfg.manifest) == Some(cfg.rawSql) && cfg.tenant == c.tenantId
    requires IsRun(cfg, ss, es) && i < |ss|
    ensures cfg.rawSql == c.sql
    ensures forall k | 0 <= k < |ss[i].calls| ::
              ss[i].calls[k] == TargetCall(c.targetUrl, c.toolName, cfg.rawSql, c.tenantId)
    ensures i < |es| && es[i].Execute? ==> CallsTarget(cfg, ss[i], es[i])
  {
    ProxyManifestBindsTheCall(c, id, cfg.hash, cfg.rawSql, cfg.defaultUrl);
    RunKeepsInv(cfg, ss, es, i);
    CallsAreTheRequest(cfg, ss, es, i);
  }

  // ----- decisions -----

  lemma StepGrowsDecisions(cfg: Config, s: Sys, e: Event)
    requires Enabled(s, e)
    ensures s.decisions <= Next(cfg, s, e).decisions
  {
  }

  lemma {:induction false} DecisionsOnlyGrow(cfg: Config, ss: seq<Sys>, es: seq<Event>, i: nat, j: nat)
    requires IsRun(cfg, ss, es) && i <= j < |ss|
    ensures ss[i].decisions <= ss[j].decisions
    decreases j
  {
    hide Next, Enabled;
    if i < j {
      DecisionsOnlyGrow(cfg, ss, es, i, j - 1);
      StepGrowsDecisions(cfg, ss[j - 1], es[j - 1]);
    }
  }

  /** The successful decisions of an id are MODIFY* followed by at most one terminal decision:
      once a terminal one has been accepted, none is accepted again. */
  lemma DecisionsAreModifiesThenOneTerminal(cfg: Config, ss: seq<Sys>, es: seq<Event>, i: nat, j: nat)
    requires IsRun(cfg, ss, es) && i <= j < |ss|
    ensures ModifiesThenOne(ss[j].decisions)
    ensures ss[i].decisions != [] && ss[i].decisions[|ss[i].decisions| - 1].decision != MODIFY
            ==> ss[j].decisions == ss[i].decisions
  {
    RunKeepsInv(cfg, ss, es, j);
    DecisionsOnlyGrow(cfg, ss, es, i, j);
    var a, b := ss[i].decisions, ss[j].decisions;
    if a != [] && a[|a| - 1].decision != MODIFY {
      assert b[|a| - 1] == a[|a| - 1];
      assert |a| == |b|;
    }
  }

  /** The loop condition is evaluated for the first time with the deadline already past, after a decision
      was recorded. */
  predicate LateFirstTest(s: Sys, e: Event) {
    e.FirstTest? && s.phase.Entered? && s.present && s.phase.deadline <= e.at && s.pipe.state != PENDING
  }

  lemma StepKeepsVerdict(cfg: Config, s: Sys, e: Event)
    requires Inv(s) && Enabled(s, e) && Preserved(Stored(s).state)
    ensures Stored(Next(cfg, s, e)) == Stored(s) <==> !LateFirstTest(s, e)
    ensures LateFirstTest(s, e) ==> Stored(Next(cfg, s, e)).state == TIMED_OUT
    ensures LateFirstTest(s, e) ==> Stored(s).state != TIMED_OUT
    ensures Preserved(Stored(Next(cfg, s, e)).state)
  {
    match e
    case Post(_) =>
    case Enter =>
    case FirstTest(_) =>
    case Poll(_) =>
    case Sync =>
    case _ =>
  }

  /** Once APPROVED, REJECTED or TIMED_OUT is stored, all six decision fields stay as they are
      if and only if no first loop test comes too late. */
  lemma {:induction false} VerdictIsFinalUnlessFirstTestIsLate(
    cfg: Config, ss: seq<Sys>, es: seq<Event>, i: nat, j: nat)
    requires IsRun(cfg, ss, es) && i <= j < |ss| && Preserved(Stored(ss[i]).state)
    ensures Stored(ss[j]) == Stored(ss[i]) <==> forall k | i <= k < j :: !LateFirstTest(ss[k], es[k])
    ensures Preserved(Stored(ss[j]).state)
    ensures Stored(ss[j]) == Stored(ss[i]) || (Stored(ss[j]).state == TIMED_OUT && Stored(ss[i]).state != TIMED_OUT)
    decreases j
  {
    if i < j {
      VerdictIsFinalUnlessFirstTestIsLate(cfg, ss, es, i, j - 1);
      RunKeepsInv(cfg, ss, es, j - 1);
      StepKeepsVerdict(cfg, ss[j - 1], es[j - 1]);
    }
  }
}
