/** Every run of the approval protocol ends, and how many steps it takes; and the run in which
    a recorded decision is lost to a late first loop test. */
module ProtocolProgress {
  import opened Handoff
  import opened Manifests
  import opened Protocol
  import opened ProtocolProofs

  // ----- measures -----

  function PollsFor(duration: nat): nat {
    (duration + POLL_INTERVAL - 1) / POLL_INTERVAL
  }

  function Rank(cfg: Config, p: Phase): nat {
    var polls := PollsFor(cfg.timeout);
    match p
    case Intake => polls + 12
    case Gate => polls + 11
    case Analysis => polls + 10
    case ContextSim => polls + 9
    case Assembly => polls + 8
    case Notifying(_) => polls + 7
    case Entered(_) => polls + 6
    case Sleeping(deadline, since) => 5 + PollsFor(if since < deadline then deadline - since else 0)
    case Reviewed => 5
    case Executing => 4
    case Calling => 3
    case Audit => 2
    case Syncing => 1
    case Done => 0
    case Failed => 0
  }

  /** A recorded MODIFY that has not yet sent the pipeline back to ANALYSIS. */
  predicate OwesRound(s: Sys) {
    Running(s) && s.present && Stored(s).state == MODIFIED && !(s.holder == PipelineContract && Analysing(s.phase))
  }

  function RoundCost(cfg: Config): nat {
    PollsFor(cfg.timeout) + 6
  }

  function Potential(cfg: Config, s: Sys): nat {
    Rank(cfg, s.phase) + if OwesRound(s) then RoundCost(cfg) else 0
  }

  function Modifies(ds: seq<DecisionPost>): nat {
    if ds == [] then 0 else Modifies(ds[..|ds| - 1]) + if ds[|ds| - 1].decision == MODIFY then 1 else 0
  }

  function PipelineSteps(es: seq<Event>): nat {
    if es == [] then 0 else PipelineSteps(es[..|es| - 1]) + if es[|es| - 1].Post? then 0 else 1
  }

  /** The deadline is never further away than the timeout. */
  predicate Timed(cfg: Config, s: Sys) {
    match s.phase
    case Notifying(deadline) => deadline <= s.clock + cfg.timeout
    case Entered(deadline) => deadline <= s.clock + cfg.timeout
    case Sleeping(deadline, since) => since < deadline <= since + cfg.timeout
    case _ => true
  }

  lemma StepKeepsTimed(cfg: Config, s: Sys, e: Event)
    requires Enabled(s, e) && Timed(cfg, s)
    ensures Timed(cfg, Next(cfg, s, e))
  {
  }

  // ----- every pipeline step pays -----

  lemma ReviewStepPays(cfg: Config, s: Sys, e: Event)
    requires Inv(s) && Timed(cfg, s) && Enabled(s, e)
    requires e.Enter? || e.FirstTest? || e.Poll?
    ensures Potential(cfg, Next(cfg, s, e)) < Potential(cfg, s)
  {
  }

  lemma PrivateStepPays(cfg: Config, s: Sys, e: Event)
    requires Inv(s) && Timed(cfg, s) && Enabled(s, e)
    requires !e.Post? && !e.Enter? && !e.FirstTest? && !e.Poll? && !e.Route? && !e.Gated?
    ensures Potential(cfg, Next(cfg, s, e)) < Potential(cfg, s)
  {
    var t := Next(cfg, s, e);
    assert Rank(cfg, t.phase) < Rank(cfg, s.phase);
    assert OwesRound(t) ==> OwesRound(s);
  }

  /** Only a MODIFY that is owed a round sends the pipeline back. */
  lemma RoutingPays(cfg: Config, s: Sys, e: Event)
    requires Inv(s) && Enabled(s, e) && (e.Route? || e.Gated?)
    ensures Potential(cfg, Next(cfg, s, e)) < Potential(cfg, s)
  {
    var t := Next(cfg, s, e);
    if t.phase == Analysis && e.Route? {
      assert OwesRound(s) && !OwesRound(t);
    } else {
      assert OwesRound(t) ==> OwesRound(s);
    }
  }

  lemma PostCosts(cfg: Config, s: Sys, p: DecisionPost)
    requires Inv(s)
    ensures var t := PostDecision(s, p);
      Potential(cfg, t) + RoundCost(cfg) * Modifies(s.decisions)
      <= Potential(cfg, s) + RoundCost(cfg) * Modifies(t.decisions)
  {
    hide Rank, Inv;
    var t := PostDecision(s, p);
    if Accepts(s) {
      assert t.phase == s.phase && !OwesRound(s);
      assert t.decisions[..|t.decisions| - 1] == s.decisions;
      var m := Modifies(s.decisions);
      assert RoundCost(cfg) * (m + 1) == RoundCost(cfg) * m + RoundCost(cfg);
    }
  }

  lemma {:induction false} StepsArePaidFor(cfg: Config, ss: seq<Sys>, es: seq<Event>, i: nat)
    requires IsRun(cfg, ss, es) && i < |ss|
    ensures Timed(cfg, ss[i])
    ensures PipelineSteps(es[..i]) + Potential(cfg, ss[i])
            <= PollsFor(cfg.timeout) + 12 + RoundCost(cfg) * Modifies(ss[i].decisions)
  {
    if i > 0 {
      StepsArePaidFor(cfg, ss, es, i - 1);
      RunKeepsInv(cfg, ss, es, i - 1);
      var s, e := ss[i - 1], es[i - 1];
      StepKeepsTimed(cfg, s, e);
      assert es[..i][..i - 1] == es[..i - 1];
      if e.Post? {
        PostCosts(cfg, s, e.post);
      } else {
        PipelineStepPays(cfg, s, e);
      }
    }
  }

  lemma PipelineStepPays(cfg: Config, s: Sys, e: Event)
    requires Inv(s) && Timed(cfg, s) && Enabled(s, e) && !e.Post?
    ensures Potential(cfg, Next(cfg, s, e)) < Potential(cfg, s)
    ensures Next(cfg, s, e).decisions == s.decisions
  {
    if e.Enter? || e.FirstTest? || e.Poll? {
      ReviewStepPays(cfg, s, e);
    } else if e.Route? || e.Gated? {
      RoutingPays(cfg, s, e);
    } else {
      PrivateStepPays(cfg, s, e);
    }
  }

  /** With m successful MODIFY decisions, a run takes at most polls + 12 + m * (polls + 6) pipeline steps. */
  lemma PipelineStepsAreBounded(cfg: Config, ss: seq<Sys>, es: seq<Event>)
    requires IsRun(cfg, ss, es)
    ensures var polls := (cfg.timeout + 4) / 5;
      PipelineSteps(es) <= polls + 12 + (polls + 6) * Modifies(ss[|es|].decisions)
  {
    hide Potential, PipelineSteps, Modifies, Enabled, Next;
    StepsArePaidFor(cfg, ss, es, |es|);
    assert es[..|es|] == es;
    assert RoundCost(cfg) == (cfg.timeout + 4) / 5 + 6;
  }

  /** The step the pipeline task takes next; it is stuck only when it has finished. */
  function NextPipelineStep(s: Sys, now: nat, g: GateOutcome): (e: Event)
    requires Running(s)
    ensures !e.Post? && !e.Crash?
    ensures s.clock <= now && (s.phase.Sleeping? ==> s.phase.since + POLL_INTERVAL <= now) ==> Enabled(s, e)
  {
    match s.phase
    case Intake => Seed
    case Gate => Gated(g)
    case Analysis => Advance
    case ContextSim => Advance
    case Assembly => StartReview(now)
    case Notifying(_) => Enter
    case Entered(_) => FirstTest(now)
    case Sleeping(_, _) => Poll(now)
    case Reviewed => Route
    case Executing => Execute
    case Calling => TargetReply
    case Audit => Audited
    case Syncing => Sync
  }

  /** Nothing but an exception from an awaited call fails a run: EXECUTION never finds its record missing. */
  lemma {:induction false} FailsOnlyByCrash(cfg: Config, ss: seq<Sys>, es: seq<Event>, i: nat)
    requires IsRun(cfg, ss, es) && i < |ss|
    requires forall k | 0 <= k < i :: !es[k].Crash?
    ensures ss[i].phase != Failed
  {
    if i > 0 {
      FailsOnlyByCrash(cfg, ss, es, i - 1);
      RunKeepsInv(cfg, ss, es, i - 1);
    }
  }

  lemma {:induction false} DoneMeansAudited(cfg: Config, ss: seq<Sys>, es: seq<Event>, i: nat) returns (k: nat)
    requires IsRun(cfg, ss, es) && i < |ss| && (ss[i].phase == Syncing || ss[i].phase == Done)
    ensures k < i && es[k] == Audited
  {
    if es[i - 1] == Audited {
      k := i - 1;
    } else {
      k := DoneMeansAudited(cfg, ss, es, i - 1);
    }
  }

  /** A run that has not crashed either went through AUDIT to its end, or its pipeline can take a further step.
      Since pipeline steps are bounded, every run with finitely many decisions gets to AUDIT. */
  lemma GoesOnUntilAudited(cfg: Config, ss: seq<Sys>, es: seq<Event>)
    requires IsRun(cfg, ss, es)
    requires forall k | 0 <= k < |es| :: !es[k].Crash?
    ensures var s := ss[|es|];
      if Running(s) then exists e: Event :: Enabled(s, e) && !e.Post? && !e.Crash?
      else s.phase == Done && exists k | 0 <= k < |es| :: es[k] == Audited
  {
    var s := ss[|es|];
    FailsOnlyByCrash(cfg, ss, es, |es|);
    if Running(s) {
      var now := s.clock + (if s.phase.Sleeping? then s.phase.since else 0) + POLL_INTERVAL;
      var e := NextPipelineStep(s, now, GateOutcome(false, UNKNOWN, 0, 0, None));
      assert Enabled(s, e);
    } else {
      var k := DoneMeansAudited(cfg, ss, es, |es|);
    }
  }

  // ----- ANALYSIS -----

  predicate AnalysesPaid(s: Sys) {
    s.analyses + (if OwesRound(s) then 1 else 0) + (if s.phase == Intake || s.phase == Gate then 1 else 0)
    <= 1 + Modifies(s.decisions)
  }

  lemma PostKeepsAnalysesPaid(s: Sys, p: DecisionPost)
    requires Inv(s) && AnalysesPaid(s)
    ensures AnalysesPaid(PostDecision(s, p))
  {
    var t := PostDecision(s, p);
    if Accepts(s) {
      assert t.decisions[..|t.decisions| - 1] == s.decisions;
    }
  }

  /** No round is owed that was not owed before. */
  lemma ReviewOwesNothingNew(cfg: Config, s: Sys, e: Event)
    requires Inv(s) && Enabled(s, e) && (e.Enter? || e.FirstTest? || e.Poll?)
    ensures OwesRound(Next(cfg, s, e)) ==> OwesRound(s)
  {
  }

  lemma ReviewKeepsAnalysesPaid(cfg: Config, s: Sys, e: Event)
    requires Inv(s) && Enabled(s, e) && AnalysesPaid(s)
    requires e.Enter? || e.FirstTest? || e.Poll?
    ensures AnalysesPaid(Next(cfg, s, e))
  {
    ReviewOwesNothingNew(cfg, s, e);
    hide Inv, OwesRound, Modifies;
    var t := Next(cfg, s, e);
    assert t.decisions == s.decisions && t.analyses == s.analyses;
  }

  lemma PrivateKeepsAnalysesPaid(cfg: Config, s: Sys, e: Event)
    requires Inv(s) && Enabled(s, e) && AnalysesPaid(s)
    requires !e.Post? && !e.Enter? && !e.FirstTest? && !e.Poll?
    ensures AnalysesPaid(Next(cfg, s, e))
  {
    var t := Next(cfg, s, e);
    assert t.decisions == s.decisions;
    if e.Route? {
      assert t.phase == Analysis ==> OwesRound(s) && !OwesRound(t);
    } else {
      assert OwesRound(t) ==> OwesRound(s);
    }
  }

  lemma StepKeepsAnalysesPaid(cfg: Config, s: Sys, e: Event)
    requires Inv(s) && Enabled(s, e) && AnalysesPaid(s)
    ensures AnalysesPaid(Next(cfg, s, e))
  {
    if e.Post? {
      PostKeepsAnalysesPaid(s, e.post);
    } else if e.Enter? || e.FirstTest? || e.Poll? {
      ReviewKeepsAnalysesPaid(cfg, s, e);
    } else {
      PrivateKeepsAnalysesPaid(cfg, s, e);
    }
  }

  lemma {:induction false} RunKeepsAnalysesPaid(cfg: Config, ss: seq<Sys>, es: seq<Event>, i: nat)
    requires IsRun(cfg, ss, es) && i < |ss|
    ensures AnalysesPaid(ss[i])
  {
    if i == 0 {
      assert !OwesRound(ss[0]);
    } else {
      RunKeepsAnalysesPaid(cfg, ss, es, i - 1);
      RunKeepsInv(cfg, ss, es, i - 1);
      StepKeepsAnalysesPaid(cfg, ss[i - 1], es[i - 1]);
      assert ss[i] == Next(cfg, ss[i - 1], es[i - 1]);
    }
  }

  /** ANALYSIS is entered at most once more than there are successful MODIFY decisions. */
  lemma AnalysesAreBounded(cfg: Config, ss: seq<Sys>, es: seq<Event>, i: nat)
    requires IsRun(cfg, ss, es) && i < |ss|
    ensures ss[i].analyses <= 1 + Modifies(ss[i].decisions)
  {
    RunKeepsAnalysesPaid(cfg, ss, es, i);
  }

  /** A first loop test that comes too late for a recorded MODIFY. */
  predicate LosesModify(s: Sys, e: Event) {
    LateFirstTest(s, e) && s.pipe.state == MODIFIED
  }

  /** How often that has happened in the first `i` events. */
  function LostModifies(ss: seq<Sys>, es: seq<Event>, i: nat): nat
    requires i <= |es| && i <= |ss|
  {
    if i == 0 then 0 else LostModifies(ss, es, i - 1) + if LosesModify(ss[i - 1], es[i - 1]) then 1 else 0
  }

  predicate Ending(p: Phase) {
    p == Audit || p == Syncing || p == Done
  }

  predicate Diverted(s: Sys) {
    s.analyses == 0 && Ending(s.phase)
  }

  /** Every accepted MODIFY has had its ANALYSIS, is owed one, or is among the `lost`. */
  predicate Balanced(s: Sys, lost: nat) {
    && s.analyses + (if OwesRound(s) then 1 else 0) + (if s.phase == Intake || s.phase == Gate then 1 else 0) + lost
       == 1 + Modifies(s.decisions)
    && (s.phase == Intake || s.phase == Gate ==> s.analyses == 0)
    && (Ending(s.phase) && s.present ==>
          s.holder == PipelineContract && s.pipe.state != PENDING && s.pipe.state != MODIFIED)
  }

  predicate Counted(s: Sys, lost: nat) {
    s.phase == Failed || Diverted(s) || Balanced(s, lost)
  }

  lemma PostKeepsCounted(s: Sys, p: DecisionPost, lost: nat)
    requires Inv(s) && Counted(s, lost)
    ensures Counted(PostDecision(s, p), lost)
  {
    var t := PostDecision(s, p);
    if Accepts(s) {
      assert t.decisions[..|t.decisions| - 1] == s.decisions;
    }
  }

  lemma ReviewKeepsCounted(cfg: Config, s: Sys, e: Event, lost: nat)
    requires Inv(s) && Enabled(s, e) && Counted(s, lost) && (e.Enter? || e.FirstTest? || e.Poll?)
    ensures Counted(Next(cfg, s, e), lost + if LosesModify(s, e) then 1 else 0)
  {
    ReviewOwes(cfg, s, e);
    hide Inv, OwesRound, LosesModify, Modifies;
    var t := Next(cfg, s, e);
    assert t.decisions == s.decisions && t.analyses == s.analyses;
  }

  /** In the review an owed round stays owed, unless it is lost. */
  lemma ReviewOwes(cfg: Config, s: Sys, e: Event)
    requires Inv(s) && Enabled(s, e) && (e.Enter? || e.FirstTest? || e.Poll?)
    ensures OwesRound(s) <==> OwesRound(Next(cfg, s, e)) || LosesModify(s, e)
    ensures !(OwesRound(Next(cfg, s, e)) && LosesModify(s, e))
  {
  }

  lemma PrivateKeepsCounted(cfg: Config, s: Sys, e: Event, lost: nat)
    requires Inv(s) && Enabled(s, e) && Counted(s, lost)
    requires !e.Post? && !e.Enter? && !e.FirstTest? && !e.Poll? && !e.Route? && !e.Gated?
    ensures Counted(Next(cfg, s, e), lost)
  {
    var t := Next(cfg, s, e);
    assert t.decisions == s.decisions && t.analyses == s.analyses;
  }

  lemma GateKeepsCounted(cfg: Config, s: Sys, e: Event, lost: nat)
    requires Inv(s) && Enabled(s, e) && Counted(s, lost) && e.Gated?
    ensures Counted(Next(cfg, s, e), lost)
  {
    hide IsFastPath, Modifies;
    var t := Next(cfg, s, e);
    assert !Diverted(s) && t.decisions == s.decisions;
    if t.phase == Analysis {
      assert OwesRound(t) <==> OwesRound(s);
    } else {
      assert Diverted(t);
    }
  }

  lemma RouteKeepsCounted(cfg: Config, s: Sys, e: Event, lost: nat)
    requires Inv(s) && Enabled(s, e) && Counted(s, lost) && e.Route?
    ensures Counted(Next(cfg, s, e), lost)
  {
    hide Modifies;
    var t := Next(cfg, s, e);
    assert !Diverted(s) && s.phase == Reviewed;
    assert t.phase == Analysis ==> OwesRound(s) && !OwesRound(t) && t.analyses == s.analyses + 1;
    assert t.phase != Analysis ==> !OwesRound(s) && !OwesRound(t) && t.analyses == s.analyses;
  }

  lemma StepKeepsCounted(cfg: Config, s: Sys, e: Event, lost: nat)
    requires Inv(s) && Enabled(s, e) && Counted(s, lost)
    ensures Counted(Next(cfg, s, e), lost + if LosesModify(s, e) then 1 else 0)
  {
    if e.Post? {
      PostKeepsCounted(s, e.post, lost);
    } else if e.Enter? || e.FirstTest? || e.Poll? {
      ReviewKeepsCounted(cfg, s, e, lost);
    } else if e.Route? {
      RouteKeepsCounted(cfg, s, e, lost);
    } else if e.Gated? {
      GateKeepsCounted(cfg, s, e, lost);
    } else {
      PrivateKeepsCounted(cfg, s, e, lost);
    }
  }

  lemma {:induction false} RunKeepsCounted(cfg: Config, ss: seq<Sys>, es: seq<Event>, i: nat)
    requires IsRun(cfg, ss, es) && i < |ss|
    ensures Counted(ss[i], LostModifies(ss, es, i))
  {
    hide Next, Enabled, Inv, LosesModify;
    if i > 0 {
      RunKeepsCounted(cfg, ss, es, i - 1);
      RunKeepsInv(cfg, ss, es, i - 1);
      StepKeepsCounted(cfg, ss[i - 1], es[i - 1], LostModifies(ss, es, i - 1));
    }
  }

  lemma {:induction false} NoneLostExactly(ss: seq<Sys>, es: seq<Event>, i: nat)
    requires i <= |es| && i <= |ss|
    ensures LostModifies(ss, es, i) == 0 <==> forall k | 0 <= k < i :: !LosesModify(ss[k], es[k])
  {
    hide LosesModify;
    if i > 0 {
      NoneLostExactly(ss, es, i - 1);
    }
  }

  /** A finished run that was analysed accounts for every accepted MODIFY: each has had exactly one further ANALYSIS,
      except those lost to a late first loop test. */
  lemma EveryModifyIsReanalysedUnlessLost(cfg: Config, ss: seq<Sys>, es: seq<Event>, i: nat)
    requires IsRun(cfg, ss, es) && i < |ss| && ss[i].phase == Done && ss[i].analyses > 0
    ensures ss[i].analyses + LostModifies(ss, es, i) == 1 + Modifies(ss[i].decisions)
    ensures ss[i].analyses == 1 + Modifies(ss[i].decisions) <==> forall k | 0 <= k < i :: !LosesModify(ss[k], es[k])
  {
    RunKeepsCounted(cfg, ss, es, i);
    NoneLostExactly(ss, es, i);
  }

  // ----- the lost decision -----

  /** Extends a run by one step. */
  lemma Extend(cfg: Config, ss: seq<Sys>, es: seq<Event>, e: Event) returns (ss': seq<Sys>, es': seq<Event>)
    requires IsRun(cfg, ss, es) && Enabled(ss[|es|], e)
    ensures IsRun(cfg, ss', es')
    ensures es' == es + [e]
    ensures ss' == ss + [Next(cfg, ss[|es|], e)]
  {
    ss', es' := ss + [Next(cfg, ss[|es|], e)], es + [e];
  }

  /** An approval accepted before RISK_GATE diverts the run: it ends APPROVED, and the target was never called. */
  lemma DivertedApprovalIsNotExecuted(cfg: Config, p: DecisionPost, g: GateOutcome)
    returns (ss: seq<Sys>, es: seq<Event>)
    requires p.decision == APPROVE && RouteFromRiskGate(g) == Audit
    ensures IsRun(cfg, ss, es)
    ensures var s := ss[|es|];
      s.phase == Done && s.present && Stored(s).state == APPROVED && s.decisions == [p] && s.calls == []
  {
    hide IsRun, RouteFromRiskGate;
    ss, es := StartsWithApproval(cfg, p);
    ss, es := Extend(cfg, ss, es, Gated(g));
    assert ss[3].phase == Audit && ss[3].holder == ProxyContract && ss[3].proxy == ss[2].proxy;
    ss, es := Extend(cfg, ss, es, Audited);
    ss, es := Extend(cfg, ss, es, Sync);
  }

  lemma StartsWithApproval(cfg: Config, p: DecisionPost) returns (ss: seq<Sys>, es: seq<Event>)
    requires p.decision == APPROVE
    ensures IsRun(cfg, ss, es) && |es| == 2
    ensures ss[2] == Sys(true, ProxyContract, Decide(UNDECIDED, p), UNDECIDED, false, 0, Gate, [p], [], 0)
  {
    ss, es := [Sys(true, ProxyContract, UNDECIDED, UNDECIDED, false, 0, Intake, [], [], 0)], [];
    ss, es := Extend(cfg, ss, es, Seed);
    ss, es := Extend(cfg, ss, es, Post(p));
  }

  function JustEntered(cfg: Config): Sys {
    Sys(true, PipelineContract, UNDECIDED, UNDECIDED, false, 0, Entered(cfg.timeout), [], [], 1)
  }

  function JustAnalysing(): Sys {
    Sys(true, ProxyContract, UNDECIDED, UNDECIDED, false, 0, Analysis, [], [], 1)
  }

  lemma ReachesAnalysis(cfg: Config) returns (ss: seq<Sys>, es: seq<Event>)
    ensures IsRun(cfg, ss, es) && |es| == 2 && ss[2] == JustAnalysing()
  {
    var g := GateOutcome(false, DELETE, 0, 600, None);
    ss, es := [Sys(true, ProxyContract, UNDECIDED, UNDECIDED, false, 0, Intake, [], [], 0)], [];
    ss, es := Extend(cfg, ss, es, Seed);
    ss, es := Extend(cfg, ss, es, Gated(g));
  }

  lemma ReachesEntered(cfg: Config) returns (ss: seq<Sys>, es: seq<Event>)
    ensures IsRun(cfg, ss, es) && |es| == 6 && ss[6] == JustEntered(cfg)
  {
    hide IsRun;
    ss, es := ReachesAnalysis(cfg);
    ss, es := Extend(cfg, ss, es, Advance);
    ss, es := Extend(cfg, ss, es, Advance);
    ss, es := Extend(cfg, ss, es, StartReview(0));
    ss, es := Extend(cfg, ss, es, Enter);
  }

  /** Whatever the timeout, any decision that arrives while HUMAN_REVIEW is still saving the contract can be
      overwritten by TIMED_OUT: the approver is told it was recorded and the pipeline rejects; no MODIFY is analysed. */
  lemma LateFirstTestLosesTheDecision(cfg: Config, p: DecisionPost) returns (ss: seq<Sys>, es: seq<Event>)
    ensures IsRun(cfg, ss, es)
    ensures |es| == 8 && Stored(ss[7]).state == DecidedState(p.decision) && ss[7].decisions == [p]
    ensures LateFirstTest(ss[7], es[7]) && (p.decision == MODIFY ==> LosesModify(ss[7], es[7]))
    ensures Stored(ss[8]).state == TIMED_OUT && ss[8].decisions == [p]
  {
    ss, es := ReachesEntered(cfg);
    ss, es := Extend(cfg, ss, es, Post(p));
    assert ss[7] == PostDecision(JustEntered(cfg), p);
    ss, es := Extend(cfg, ss, es, FirstTest(cfg.timeout));
  }
}
