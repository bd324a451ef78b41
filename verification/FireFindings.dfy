/**
 Runs in which the code does something other than its documentation says, and exactly when
 it does.
 */
module FireFindings {
  import opened Options
  import opened FireGraph
  import opened FireTermination
  import opened FireInvariant
  import opened FireRuns

  /** A node and the state a run stands at it with. */
  datatype Standpoint = At(node: Node, state: State)

  ghost predicate IsStep(cfg: Config, from: Standpoint, upTo: Standpoint) {
    exists a :: Possible(cfg, from.node, a) && Step(cfg, from.node, from.state, a) == On(upTo.node, upTo.state)
  }

  /** The standpoints of a run, from its entry on. */
  ghost predicate IsRun(cfg: Config, run: seq<Standpoint>) {
    && |run| > 0 && run[0] == At(RouteEntry(cfg, Initial(cfg)), Initial(cfg))
    && forall k :: 0 <= k < |run| - 1 ==> IsStep(cfg, run[k], run[k + 1])
  }

  ghost predicate Reachable(cfg: Config, n: Node, s: State) {
    exists run :: IsRun(cfg, run) && run[|run| - 1] == At(n, s)
  }

  lemma EntryIsReachable(cfg: Config)
    ensures Reachable(cfg, RouteEntry(cfg, Initial(cfg)), Initial(cfg))
  {
    var run := [At(RouteEntry(cfg, Initial(cfg)), Initial(cfg))];
    assert IsRun(cfg, run) && run[|run| - 1] == run[0];
  }

  lemma ReachesOn(cfg: Config, n: Node, s: State, a: Answer, n': Node, s': State)
    requires Reachable(cfg, n, s) && Possible(cfg, n, a) && Step(cfg, n, s, a) == On(n', s')
    ensures Reachable(cfg, n', s')
  {
    var run :| IsRun(cfg, run) && run[|run| - 1] == At(n, s);
    var longer := run + [At(n', s')];
    forall k | 0 <= k < |longer| - 1 ensures IsStep(cfg, longer[k], longer[k + 1]) {
      if k < |run| - 1 {
        assert IsStep(cfg, run[k], run[k + 1]);
      }
    }
    assert IsRun(cfg, longer) && longer[|longer| - 1] == At(n', s');
  }

  // ------------------------------------------------------- the edges the runs take

  lemma Enters(cfg: Config, s: State)
    requires Reachable(cfg, ResolveVisibility, s)
    ensures Reachable(cfg, Route(cfg, ResolveVisibility, s), s)
  {
    ReachesOn(cfg, ResolveVisibility, s, Done, Route(cfg, ResolveVisibility, s), s);
  }

  lemma Revalidates(cfg: Config, s: State)
    requires Reachable(cfg, RevalidateCriteria, s) && !cfg.deliverOnly
    ensures Reachable(cfg, RuleOpenQuestions, CriteriaRead(s))
  {
    ReachesOn(cfg, RevalidateCriteria, s, Done, RuleOpenQuestions, CriteriaRead(s));
  }

  lemma Rules(cfg: Config, s: State)
    requires Reachable(cfg, RuleOpenQuestions, s) && cfg.rulings && CanImplement(s) && !s.plan.rulingUnrecorded
    ensures Reachable(cfg, RunRalphLoop, s)
    ensures Reachable(cfg, FireComplete, RulingMissed(s))
  {
    ReachesOn(cfg, RuleOpenQuestions, s, Ruled(true), RunRalphLoop, s);
    ReachesOn(cfg, RuleOpenQuestions, s, Ruled(false), FireComplete, RulingMissed(s));
  }

  lemma Implements(cfg: Config, s: State, cleared: bool, trajectory: Trajectory)
    requires Reachable(cfg, RunRalphLoop, s) && CanImplement(s)
    ensures Reachable(cfg, MergeToFeature, Implemented(s, 1, cleared, trajectory))
  {
    var next := Implemented(s, 1, cleared, trajectory);
    ReachesOn(cfg, RunRalphLoop, s, Looped(1, cleared, trajectory), MergeToFeature, next);
  }

  /** A loop the gate did not clear. */
  lemma ExitsLoop(cfg: Config, s: State)
    requires Reachable(cfg, MergeToFeature, s) && !s.loop.cleared
    ensures Reachable(cfg, if RoundsRemain(cfg, s) then Remediate else LandBestIteration, LoopExit(s))
  {
    var one := Consolidated([Consolidation(Divergent, Sha(0))], None);
    ReachesOn(cfg, MergeToFeature, s, one, if RoundsRemain(cfg, s) then Remediate else LandBestIteration, LoopExit(s));
  }

  /** The state an integrated merge writes. */
  function Merged(s: State, tip: Sha, base: Sha): State {
    s.(merge := MergeFacts(Some(tip), Some(base), Some(tip), true, false, s.merge.reviewPassed),
       spent := s.spent.(tipRound := s.rounds.roundsUsed))
  }

  lemma Merges(cfg: Config, s: State, tip: Sha, base: Sha)
    requires Reachable(cfg, MergeToFeature, s) && s.loop.cleared && cfg.arm != ScopeRun
    ensures Reachable(cfg, ReviewAgainstTicket, Merged(s, tip, base))
  {
    var one := Consolidated([Consolidation(FastForwarded, tip)], Some(base));
    ReachesOn(cfg, MergeToFeature, s, one, ReviewAgainstTicket, Merged(s, tip, base));
  }

  lemma IsReviewed(cfg: Config, s: State, passed: bool)
    requires Reachable(cfg, ReviewAgainstTicket, s) && CanImplement(s)
    requires s.merge.reviewBase.Some? && s.merge.reviewHead.Some?
    ensures Reachable(cfg, if !passed && RoundsRemain(cfg, s) then Remediate else FireComplete, Judged(s, passed))
  {
    var next := if !passed && RoundsRemain(cfg, s) then Remediate else FireComplete;
    ReachesOn(cfg, ReviewAgainstTicket, s, Reviewed(passed), next, Judged(s, passed));
  }

  lemma Remediates(cfg: Config, s: State)
    requires Reachable(cfg, Remediate, s) && cfg.remediator && CanImplement(s)
    ensures Reachable(cfg, CriteriaGate(cfg), Draft(cfg, s))
  {
    ReachesOn(cfg, Remediate, s, Done, CriteriaGate(cfg), Draft(cfg, s));
  }

  lemma CompletesFire(cfg: Config, s: State)
    requires Reachable(cfg, FireComplete, s) && Classify(s).Some?
    ensures Reachable(cfg, if cfg.arm == Native then DeliverLane else RouteAfterFire(cfg, s), s)
  {
    ReachesOn(cfg, FireComplete, s, Done, if cfg.arm == Native then DeliverLane else RouteAfterFire(cfg, s), s);
  }

  // ------------------------------------------------------- a stale tip delivered

  /**
   A lane's delivery that reads its fire as stalled takes the tip of the round that stalled,
   except in a fire whose ruling went unrecorded: there the tip is always an earlier round's.
   */
  lemma StalledTipIsStaleIffRulingUnrecorded(cfg: Config, answers: nat -> Answer, k: nat, s: State)
    requires Composed(cfg) && Answered(cfg, answers)
    requires After(cfg, answers, k) == On(DeliverLane, s) && ReadsAsStalled(s)
    ensures TipIsStale(s) <==> s.plan.rulingUnrecorded
  {
    EveryStepIsSafe(cfg, answers, k);
    SafeLaneIsDated(cfg, s);
  }

  lemma SafeLaneIsDated(cfg: Config, s: State)
    requires On(DeliverLane, s) in SafeProgress(cfg) && s.merge.tip.Some?
    ensures TipIsStale(s) <==> s.plan.rulingUnrecorded
  {
    assert Safe(cfg, On(DeliverLane, s));
  }

  const STALE_LANE := Config(Native, false, true, 2, 1, 3, true, true, false, true, true, false)

  const BEST := Trajectory(false, Some(Sha(1)))
  const LATER := Trajectory(false, Some(Sha(2)))

  /** A native round whose loop the gate does not clear. */
  lemma UnclearedRound() returns (s: State)
    ensures Reachable(STALE_LANE, RevalidateCriteria, s)
    ensures s.rounds.roundsUsed == 1 && s.loop.best == Some(Sha(1)) && !s.plan.rulingUnrecorded
  {
    var c := STALE_LANE;
    s := Initial(c);
    EntryIsReachable(c);
    Enters(c, s);
    Revalidates(c, s);
    s := CriteriaRead(s);
    Rules(c, s);
    Implements(c, s, false, BEST);
    s := Implemented(s, 1, false, BEST);
    ExitsLoop(c, s);
    s := LoopExit(s);
    Remediates(c, s);
    s := Draft(c, s);
  }

  /** A native round that is merged and fails its review. */
  lemma UnreviewedRound(r: State) returns (s: State)
    requires Reachable(STALE_LANE, RevalidateCriteria, r) && r.rounds.roundsUsed == 1 && !r.plan.rulingUnrecorded
    ensures Reachable(STALE_LANE, RevalidateCriteria, s)
    ensures s.rounds.roundsUsed == 2 && s.loop.best == r.loop.best && !s.plan.rulingUnrecorded && !s.loop.cleared
    ensures s.loop.trajectory == Some(LATER) && s.merge.tip == Some(Sha(2)) && s.spent.tipRound == 1
    ensures !s.merge.merged && !s.merge.mergeError
  {
    var c := STALE_LANE;
    Revalidates(c, r);
    s := CriteriaRead(r);
    Rules(c, s);
    Implements(c, s, true, LATER);
    s := Implemented(s, 1, true, LATER);
    Merges(c, s, Sha(2), Sha(0));
    s := Merged(s, Sha(2), Sha(0));
    IsReviewed(c, s, false);
    s := Judged(s, false);
    Remediates(c, s);
    s := Draft(c, s);
  }

  lemma DeliversLane(cfg: Config, s: State)
    requires Reachable(cfg, DeliverLane, s) && cfg.arm == Native && OnForge(cfg) && s.plan.spec
    requires Classify(s).Some? && ReadsAsStalled(s)
    ensures Reachable(cfg, LaneComplete, WithLane(s, CompletedLane(false)))
  {
    ReachesOn(cfg, DeliverLane, s, Checked(Passed, None, false), LaneComplete, WithLane(s, CompletedLane(false)));
  }

  /**
   A lane composed as the root composes it publishes the second round's tip as the best of a
   third round that implemented nothing, over a best commit of the first.
   */
  lemma AStaleTipIsDelivered() returns (s: State)
    ensures Composed(STALE_LANE) && Reachable(STALE_LANE, LaneComplete, s)
    ensures s.out.lane == CompletedLane(false) && Classify(s) == Some(RulingUnrecorded)
    ensures s.merge.tip == Some(Sha(2)) && s.loop.best == Some(Sha(1)) && TipIsStale(s)
  {
    var c := STALE_LANE;
    s := UnclearedRound();
    s := UnreviewedRound(s);
    Revalidates(c, s);
    s := CriteriaRead(s);
    Rules(c, s);
    s := RulingMissed(s);
    CompletesFire(c, s);
    DeliversLane(c, s);
    s := WithLane(s, CompletedLane(false));
  }

  // ---------------------------------------------- a scope run that landed nowhere

  const SCOPE_RUN := Config(ScopeRun, false, true, 1, 1, 3, true, true, false, true, false, true)

  lemma Prepares(cfg: Config, s: State)
    requires Reachable(cfg, Groom, s) && cfg.arm == ScopeRun && !s.plan.infeasible
    ensures Reachable(cfg, RunRalphLoop, CriteriaRead(s))
  {
    ReachesOn(cfg, Groom, s, Done, Prep, s);
    ReachesOn(cfg, Prep, s, Prepped(true), RunRalphLoop, CriteriaRead(s));
  }

  lemma LandsNowhere(cfg: Config, s: State)
    requires Reachable(cfg, LandBestIteration, s) && PerRepository(cfg)
    ensures Reachable(cfg, FireComplete, s)
  {
    var diverged := [Consolidation(Divergent, Sha(1))];
    assert Landed(diverged) == [] + Landed([]);
    ReachesOn(cfg, LandBestIteration, s, Consolidated(diverged, None), FireComplete, s);
  }

  /** One scope round whose loop the gate does not clear. */
  lemma StalledScopeRound(r: State) returns (s: State)
    requires Reachable(SCOPE_RUN, RunRalphLoop, r) && CanImplement(r) && !r.plan.infeasible && !r.plan.rulingUnrecorded
    ensures Reachable(SCOPE_RUN, if r.rounds.roundsUsed == 0 then Remediate else LandBestIteration, s)
    ensures CanImplement(s) && s.rounds == r.rounds && !s.plan.infeasible && !s.plan.rulingUnrecorded && !s.loop.cleared
    ensures s.loop.best.Some? && s.loop.trajectory.Some? && s.merge.tip.None? && !s.merge.merged && !s.merge.mergeError
  {
    Implements(SCOPE_RUN, r, false, BEST);
    s := Implemented(r, 1, false, BEST);
    ExitsLoop(SCOPE_RUN, s);
    s := LoopExit(s);
  }

  /** A scope run's unmet precondition is reached. */
  lemma AScopeRunRaisesAtItsStalledPublication() returns (s: State)
    ensures Composed(SCOPE_RUN) && Reachable(SCOPE_RUN, OpenStalledPr, s)
    ensures Step(SCOPE_RUN, OpenStalledPr, s, Done) == Stopped(Unmet(OpenStalledPr))
  {
    var c := SCOPE_RUN;
    s := Initial(c);
    EntryIsReachable(c);
    Enters(c, s);
    Prepares(c, s);
    s := StalledScopeRound(CriteriaRead(s));
    Remediates(c, s);
    s := StalledScopeRound(Draft(c, s));
    LandsNowhere(c, s);
    CompletesFire(c, s);
  }

  // ------------------------------------------- how each disposition comes about

  /** The fire's disposition, read off the way it ended. */
  lemma DispositionsReadTheEnding(cfg: Config, s: State)
    requires FireEnded(cfg, s) && RoundsCounted(s)
    ensures Classify(s) == Some(RulingUnrecorded) <==> s.plan.rulingUnrecorded
    ensures Classify(s) == Some(CriteriaInfeasible) <==> s.plan.infeasible
    ensures Classify(s) == Some(MergeDivergent) <==> s.merge.mergeError && !s.rounds.remediationTicket
    ensures Classify(s) == Some(FixConsolidationFailed) <==> s.merge.mergeError && s.rounds.remediationTicket
    ensures Classify(s) == Some(ZeroCommitNoPr) <==> Stalled(cfg, s) && s.loop.best.None?
    ensures Classify(s) == Some(RemediationBudgetExhausted) <==> StalledWithBest(cfg, s) && s.rounds.remediationTicket
    ensures Classify(s) == Some(LoopPlateaued) <==> StalledAtOnce(cfg, s) && s.loop.trajectory.value.plateaued
    ensures Classify(s) == Some(LoopNotAccepted) <==> StalledAtOnce(cfg, s) && !s.loop.trajectory.value.plateaued
    ensures Classify(s) == Some(HandedOffForDelivery) <==> HandedOff(s)
    ensures Classify(s) == Some(ReviewFailedFixBudgetExhausted) <==> Integrated(s) && !s.merge.reviewPassed
  {
  }

  predicate StalledWithBest(cfg: Config, s: State) {
    Stalled(cfg, s) && s.loop.best.Some?
  }

  /** Stalled with work to show, and no remediation round was ever opened. */
  predicate StalledAtOnce(cfg: Config, s: State) {
    StalledWithBest(cfg, s) && !s.rounds.remediationTicket
  }

  /** Without a pull request the authored disposition is the fire's, but for one name. */
  lemma UnpublishedDispositionsReadTheEnding(cfg: Config, s: State)
    requires FireEnded(cfg, s) && RoundsCounted(s)
    ensures ClassifyAuthored(s) == Some(ReviewPassedNoPrAdapter) <==> HandedOff(s) && !s.out.pr
    ensures ClassifyAuthored(s) == Some(ReviewFailedFixBudgetExhausted) <==>
            Integrated(s) && !s.merge.reviewPassed && !s.out.pr
    ensures ClassifyAuthored(s) == Some(RulingUnrecorded) <==> s.plan.rulingUnrecorded && !s.out.pr
    ensures ClassifyAuthored(s) == Some(ZeroCommitNoPr) <==> Stalled(cfg, s) && s.loop.best.None? && !s.out.pr
    ensures ClassifyAuthored(s) == Some(RemediationBudgetExhausted) <==>
            StalledWithBest(cfg, s) && s.rounds.remediationTicket && !s.out.pr
    ensures ClassifyAuthored(s) == Some(LoopPlateaued) <==>
            StalledAtOnce(cfg, s) && s.loop.trajectory.value.plateaued && !s.out.pr
    ensures ClassifyAuthored(s) == Some(LoopNotAccepted) <==>
            StalledAtOnce(cfg, s) && !s.loop.trajectory.value.plateaued && !s.out.pr
  {
  }

  /** The last checks of an integrated pull request, with a run at its head and no cause outside the work. */
  predicate ChecksJudge(s: State) {
    && Integrated(s) && s.out.pr && !s.out.runAbsent
    && s.out.redClass != Some(EnvironmentUnmet) && s.out.redClass != Some(Unclassified)
  }

  /** With a pull request the authored disposition is that of its last checks, once the work is integrated. */
  lemma PublishedDispositionsReadTheEnding(cfg: Config, s: State)
    requires FireEnded(cfg, s) && RoundsCounted(s)
    ensures ClassifyAuthored(s) == Some(StalledPrOpened) <==> s.out.pr && (Stalled(cfg, s) || s.plan.rulingUnrecorded)
    ensures ClassifyAuthored(s) == Some(CiNoRunAtRef) <==> Integrated(s) && s.out.pr && s.out.runAbsent
    ensures ClassifyAuthored(s) == Some(CiFailedEnvironmentPrerequisite) <==>
            Integrated(s) && s.out.pr && !s.out.runAbsent && s.out.redClass == Some(EnvironmentUnmet)
    ensures ClassifyAuthored(s) == Some(CiFailedUnclassified) <==>
            Integrated(s) && s.out.pr && !s.out.runAbsent && s.out.redClass == Some(Unclassified)
    ensures ClassifyAuthored(s) == Some(PrOpened) <==> ChecksJudge(s) && s.out.ciStatus == NotMonitored
    ensures ClassifyAuthored(s) == Some(CiPassed) <==> ChecksJudge(s) && s.out.ciStatus == Passed
    ensures ClassifyAuthored(s) == Some(CiNotConfigured) <==> ChecksJudge(s) && s.out.ciStatus == NotConfigured
    ensures ClassifyAuthored(s) == Some(CiFailedFixBudgetExhausted) <==> ChecksJudge(s) && s.out.ciStatus == Failed
    ensures ClassifyAuthored(s) == Some(CriteriaInfeasible) <==> s.plan.infeasible
    ensures ClassifyAuthored(s) == Some(MergeDivergent) <==> s.merge.mergeError && !s.rounds.remediationTicket
    ensures ClassifyAuthored(s) == Some(FixConsolidationFailed) <==> s.merge.mergeError && s.rounds.remediationTicket
    ensures ClassifyAuthored(s) != Some(HandedOffForDelivery)
  {
  }

  /**
   When a run that ends gets the two dispositions the vocabulary calls unreachable: its work was
   merged, and either its review failed with no pull request open, or one is open and its last
   checks failed. No round is left in the first.
   */
  lemma FixBudgetOutcomesReadTheRun(cfg: Config, answers: nat -> Answer, s: State)
    requires Composed(cfg) && Answered(cfg, answers) && Run(cfg, answers) == Ended(s)
    ensures ClassifyAuthored(s) == Some(ReviewFailedFixBudgetExhausted) <==>
            Integrated(s) && !s.merge.reviewPassed && !s.out.pr
    ensures ClassifyAuthored(s) == Some(CiFailedFixBudgetExhausted) <==> ChecksJudge(s) && s.out.ciStatus == Failed
    ensures ClassifyAuthored(s) == Some(ReviewFailedFixBudgetExhausted) ==> !RoundsRemain(cfg, s)
  {
    RunEndsSafely(cfg, answers);
    EndedRunIsRead(cfg, s);
  }

  lemma EndedRunIsRead(cfg: Config, s: State)
    requires Ended(s) in SafeEndings(cfg)
    ensures FireEnded(cfg, s) && RoundsCounted(s)
    ensures ClassifyAuthored(s) == Some(ReviewFailedFixBudgetExhausted) <==>
            Integrated(s) && !s.merge.reviewPassed && !s.out.pr
    ensures ClassifyAuthored(s) == Some(CiFailedFixBudgetExhausted) <==> ChecksJudge(s) && s.out.ciStatus == Failed
    ensures ClassifyAuthored(s) == Some(ReviewFailedFixBudgetExhausted) ==> !RoundsRemain(cfg, s)
  {
    assert EndsSafely(cfg, Ended(s));
    UnpublishedDispositionsReadTheEnding(cfg, s);
    PublishedDispositionsReadTheEnding(cfg, s);
  }

  // ------------------------------------------------- dispositions that are reached

  lemma PassesSweep(cfg: Config, s: State)
    requires Reachable(cfg, ValidateCriteria, s) && cfg.arm == Authored && s.plan.spec && !s.plan.infeasible
    ensures Reachable(cfg, RunRalphLoop, Sweep(cfg, s, false))
  {
    var swept, next := Sweep(cfg, s, false), if cfg.persister then PersistArtifacts else RunRalphLoop;
    ReachesOn(cfg, ValidateCriteria, s, Swept(false), next, swept);
    if cfg.persister {
      ReachesOn(cfg, PersistArtifacts, swept, Done, RunRalphLoop, swept);
    }
  }

  /** An authored round whose criteria the sweep passes, up to the review of its merged work. */
  lemma AuthoredRound(cfg: Config, r: State) returns (s: State)
    requires Reachable(cfg, GenerateCriteria, r) && cfg.arm == Authored
    requires r.plan.spec && !r.plan.infeasible && !r.plan.rulingUnrecorded
    ensures Reachable(cfg, ReviewAgainstTicket, s)
    ensures Integrated(s) && s.rounds == r.rounds && s.out == r.out
  {
    s := CriteriaGenerated(r);
    ReachesOn(cfg, GenerateCriteria, r, Done, ValidateCriteria, s);
    PassesSweep(cfg, s);
    s := Sweep(cfg, s, false);
    Implements(cfg, s, true, LATER);
    s := Implemented(s, 1, true, LATER);
    Merges(cfg, s, Sha(2), Sha(0));
    s := Merged(s, Sha(2), Sha(0));
  }

  lemma Authors(cfg: Config, s: State)
    requires Reachable(cfg, GenerateBranch, s) && cfg.arm == Authored
    ensures Reachable(cfg, GenerateCriteria, TicketGenerated(BranchGenerated(s)))
  {
    var branched := BranchGenerated(s);
    var ticketed, next := TicketGenerated(branched), if cfg.persister then PersistTicket else GenerateCriteria;
    ReachesOn(cfg, GenerateBranch, s, Done, GenerateTicket, branched);
    ReachesOn(cfg, GenerateTicket, branched, Done, next, ticketed);
    if cfg.persister {
      ReachesOn(cfg, PersistTicket, ticketed, Done, GenerateCriteria, ticketed);
    }
  }

  /** The first round of an authored run, from its entry to the review. */
  lemma FirstAuthoredRound(cfg: Config) returns (s: State)
    requires cfg.arm == Authored
    ensures Reachable(cfg, ReviewAgainstTicket, s)
    ensures Integrated(s) && s.rounds == Rounds(0, false) && s.out == Initial(cfg).out
  {
    s := Initial(cfg);
    EntryIsReachable(cfg);
    Enters(cfg, s);
    Authors(cfg, s);
    s := AuthoredRound(cfg, TicketGenerated(BranchGenerated(s)));
  }

  /** The rounds a configuration offers. */
  function Budget(cfg: Config): nat {
    if cfg.remediator then cfg.remediationMax else 0
  }

  /** Every review from here on fails. */
  lemma {:induction false} ReviewsGoOnFailing(cfg: Config, r: State) returns (s: State)
    requires Reachable(cfg, ReviewAgainstTicket, r) && cfg.arm == Authored
    requires Integrated(r) && !r.out.pr && r.rounds.roundsUsed <= Budget(cfg)
    ensures Reachable(cfg, DeliveryComplete, s) && s.rounds.roundsUsed == Budget(cfg)
    ensures ClassifyAuthored(s) == Some(ReviewFailedFixBudgetExhausted)
    decreases Budget(cfg) - r.rounds.roundsUsed
  {
    IsReviewed(cfg, r, false);
    s := Judged(r, false);
    if RoundsRemain(cfg, s) {
      Remediates(cfg, s);
      s := AuthoredRound(cfg, Draft(cfg, s));
      s := ReviewsGoOnFailing(cfg, s);
    } else {
      CompletesFire(cfg, s);
    }
  }

  /** At every authored configuration some run spends its budget and ends on a failed review. */
  lemma AFailedReviewExhaustsItsBudget(cfg: Config) returns (s: State)
    requires cfg.arm == Authored
    ensures Reachable(cfg, DeliveryComplete, s) && s.rounds.roundsUsed == Budget(cfg)
    ensures ClassifyAuthored(s) == Some(ReviewFailedFixBudgetExhausted)
  {
    s := FirstAuthoredRound(cfg);
    s := ReviewsGoOnFailing(cfg, s);
  }

  const DEFECT := Checked(Failed, Some(WorkDefect), false)

  function Red(s: State): State {
    ChecksRead(s, Failed, Some(WorkDefect), false)
  }

  lemma OpensPr(cfg: Config, s: State)
    requires Reachable(cfg, OpenPr, s) && OnForge(cfg) && CanImplement(s) && s.merge.tip.Some?
    ensures Reachable(cfg, MonitorCi, WithPr(s))
  {
    ReachesOn(cfg, OpenPr, s, Done, MonitorCi, WithPr(s));
  }

  lemma ReadsADefect(cfg: Config, s: State)
    requires Reachable(cfg, MonitorCi, s) && OnForge(cfg) && s.out.pr
    ensures Reachable(cfg, if RoundsRemain(cfg, s) then DeliveryRemediation else CommentFailure, Red(s))
  {
    ReachesOn(cfg, MonitorCi, s, DEFECT, if RoundsRemain(cfg, s) then DeliveryRemediation else CommentFailure, Red(s));
  }

  lemma RemediatesDelivery(cfg: Config, s: State)
    requires Reachable(cfg, DeliveryRemediation, s) && cfg.remediator && CanImplement(s)
    ensures Reachable(cfg, CriteriaGate(cfg), Draft(cfg, s))
  {
    ReachesOn(cfg, DeliveryRemediation, s, Done, CriteriaGate(cfg), Draft(cfg, s));
  }

  lemma CommentsFailure(cfg: Config, s: State)
    requires Reachable(cfg, CommentFailure, s) && OnForge(cfg) && s.out.pr
    ensures Reachable(cfg, DeliveryComplete, s)
  {
    ReachesOn(cfg, CommentFailure, s, Done, DeliveryComplete, s);
  }

  /** Reviewed work reaches its checks, opening the pull request unless there is one. */
  lemma ReachesItsChecks(cfg: Config, r: State) returns (s: State)
    requires Reachable(cfg, ReviewAgainstTicket, r) && cfg.arm == Authored && OnForge(cfg) && Integrated(r)
    ensures Reachable(cfg, MonitorCi, s)
    ensures Integrated(s) && s.merge.reviewPassed && s.out.pr && s.rounds == r.rounds
  {
    IsReviewed(cfg, r, true);
    s := Judged(r, true);
    CompletesFire(cfg, s);
    if !s.out.pr {
      OpensPr(cfg, s);
      s := WithPr(s);
    }
  }

  /** Every review from here on passes and every check fails. */
  lemma {:induction false} ChecksGoOnFailing(cfg: Config, r: State) returns (s: State)
    requires Reachable(cfg, ReviewAgainstTicket, r) && cfg.arm == Authored && OnForge(cfg)
    requires Integrated(r) && r.rounds.roundsUsed <= Budget(cfg)
    ensures Reachable(cfg, DeliveryComplete, s) && s.rounds.roundsUsed == Budget(cfg)
    ensures ClassifyAuthored(s) == Some(CiFailedFixBudgetExhausted)
    decreases Budget(cfg) - r.rounds.roundsUsed
  {
    s := ReachesItsChecks(cfg, r);
    ReadsADefect(cfg, s);
    s := Red(s);
    if RoundsRemain(cfg, s) {
      RemediatesDelivery(cfg, s);
      s := AuthoredRound(cfg, Draft(cfg, s));
      s := ChecksGoOnFailing(cfg, s);
    } else {
      CommentsFailure(cfg, s);
    }
  }

  /** At every authored configuration with a forge some run spends its budget and ends on failed checks. */
  lemma FailedChecksExhaustTheirBudget(cfg: Config) returns (s: State)
    requires cfg.arm == Authored && OnForge(cfg)
    ensures Reachable(cfg, DeliveryComplete, s) && s.rounds.roundsUsed == Budget(cfg)
    ensures ClassifyAuthored(s) == Some(CiFailedFixBudgetExhausted)
  {
    s := FirstAuthoredRound(cfg);
    s := ChecksGoOnFailing(cfg, s);
  }

  // ------------------------------------------------------ lanes that were not provided for

  /** A lane built without its rulings reader reaches the rulings step and raises there. */
  lemma ALaneWithoutItsReaderRaises(cfg: Config) returns (s: State)
    requires cfg.arm == Native && !cfg.deliverOnly && !cfg.rulings
    ensures Reachable(cfg, RuleOpenQuestions, s)
    ensures Step(cfg, RuleOpenQuestions, s, Ruled(true)) == Stopped(Unmet(RuleOpenQuestions))
  {
    s := Initial(cfg);
    EntryIsReachable(cfg);
    Enters(cfg, s);
    Revalidates(cfg, s);
    s := CriteriaRead(s);
  }

  lemma RevalidatesForDelivery(cfg: Config, s: State)
    requires Reachable(cfg, RevalidateCriteria, s) && cfg.deliverOnly && !s.rounds.remediationTicket
    ensures Reachable(cfg, MergeToFeature, CriteriaRead(s))
  {
    ReachesOn(cfg, RevalidateCriteria, s, Done, MergeToFeature, CriteriaRead(s));
  }

  /** A lane's first round, up to a merge the gate cleared. */
  lemma FirstLaneRound(cfg: Config) returns (s: State)
    requires cfg.arm == Native && (cfg.deliverOnly || cfg.rulings)
    ensures Reachable(cfg, MergeToFeature, s) && s.loop.cleared && CanImplement(s) && RoundOpen(s)
  {
    s := Initial(cfg);
    EntryIsReachable(cfg);
    Enters(cfg, s);
    if cfg.deliverOnly {
      RevalidatesForDelivery(cfg, s);
      s := CriteriaRead(s);
    } else {
      Revalidates(cfg, s);
      s := CriteriaRead(s);
      Rules(cfg, s);
      Implements(cfg, s, true, LATER);
      s := Implemented(s, 1, true, LATER);
    }
  }

  /** A lane on a forge without a repository comes to its delivery with reviewed work and raises there. */
  lemma ALaneWithoutItsRepositoryRaises(cfg: Config) returns (s: State)
    requires cfg.arm == Native && (cfg.deliverOnly || cfg.rulings) && cfg.forge && !cfg.repoUrl
    ensures Reachable(cfg, DeliverLane, s)
    ensures Step(cfg, DeliverLane, s, Checked(Passed, None, false)) == Stopped(Unmet(DeliverLane))
  {
    s := FirstLaneRound(cfg);
    Merges(cfg, s, Sha(2), Sha(0));
    s := Merged(s, Sha(2), Sha(0));
    IsReviewed(cfg, s, true);
    s := Judged(s, true);
    CompletesFire(cfg, s);
  }
}
