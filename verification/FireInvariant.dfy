/**
 What holds at every node of every run: no node's own precondition is ever unmet, the
 terminal classifiers are total, and what a run spends is bounded.
 */
module FireInvariant {
  import opened Options
  import opened FireGraph
  import opened FireTermination

  /** What the composition root guarantees of a configuration. */
  predicate Composed(cfg: Config) {
    cfg.refPublisher
  }

  // ------------------------------------------------------------- shapes of a state

  /** Nothing of this round has been implemented yet. */
  predicate RoundOpen(s: State) {
    !s.plan.infeasible && !s.merge.merged && !s.merge.mergeError && !s.merge.reviewPassed && !s.plan.rulingUnrecorded
  }

  predicate Integrated(s: State) {
    && s.merge.merged && s.loop.cleared && !s.merge.mergeError && !s.plan.infeasible && !s.plan.rulingUnrecorded
    && s.merge.tip.Some? && s.merge.reviewBase.Some? && s.merge.reviewHead == s.merge.tip
    && s.plan.spec && s.plan.criteria
  }

  /** The gate refused the loop's work and no further round is left. */
  predicate Stalled(cfg: Config, s: State) {
    && !s.loop.cleared && RoundOpen(s) && s.loop.trajectory.Some?
    && s.plan.spec && s.plan.criteria && !RoundsRemain(cfg, s)
  }

  /** The five ways the fire graph ends. */
  predicate FireEnded(cfg: Config, s: State) {
    || (s.plan.infeasible && cfg.arm != Native && !s.merge.merged && !s.merge.mergeError && !s.plan.rulingUnrecorded)
    || (s.plan.rulingUnrecorded && cfg.arm == Native && !s.loop.cleared && !s.merge.merged && !s.merge.mergeError
        && !s.plan.infeasible && s.plan.spec)
    || (s.merge.mergeError && s.loop.cleared && !s.merge.merged && !s.plan.infeasible && !s.plan.rulingUnrecorded)
    || (Integrated(s) && (s.merge.reviewPassed || !RoundsRemain(cfg, s)))
    || (Stalled(cfg, s) && (!PerRepository(cfg) && Publishes(cfg) && s.loop.best.Some? ==> s.merge.tip.Some?))
  }

  predicate HandedOff(s: State) {
    Integrated(s) && s.merge.reviewPassed
  }

  // ----------------------------------------------------------------------- ledger

  predicate BeforeLoop(n: Node) {
    || BeforeGate(n) || n == ValidateCriteria || n == PersistArtifacts || n == Groom || n == Prep
    || n == RevalidateCriteria || n == RuleOpenQuestions || n == RunRalphLoop
  }

  predicate BeforeGate(n: Node) {
    n == ResolveVisibility || n == GenerateBranch || n == GenerateTicket || n == PersistTicket || n == GenerateCriteria
  }

  /** Only delivery steps follow a stalled pull request. */
  predicate AfterStall(n: Node) {
    n == MonitorCi || n == CommentFailure || n == DeliveryComplete || n == End
  }

  function LoopsAllowed(n: Node, s: State): nat {
    if BeforeLoop(n) then s.rounds.roundsUsed else s.rounds.roundsUsed + 1
  }

  /** *k* rounds of *m* each. */
  function Times(k: nat, m: nat): nat {
    if k == 0 then 0 else Times(k - 1, m) + m
  }

  function GenerationsAllowed(cfg: Config, n: Node, s: State): nat {
    Times(s.rounds.roundsUsed, cfg.regenerationMax + 1) +
    if BeforeGate(n) then s.plan.regenerations
    else if n == ValidateCriteria then s.plan.regenerations + 1
    else cfg.regenerationMax + 1
  }

  /** A remediation ticket is captured exactly when a round has been spent. */
  predicate RoundsCounted(s: State) {
    s.rounds.remediationTicket <==> s.rounds.roundsUsed > 0
  }

  predicate Ledger(cfg: Config, n: Node, s: State) {
    && s.rounds.roundsUsed <= cfg.remediationMax
    && s.plan.regenerations <= cfg.regenerationMax
    && RoundsCounted(s)
    && s.spent.loops <= LoopsAllowed(n, s)
    && s.loop.iterations <= Times(s.spent.loops, LoopBound(cfg))
    && s.spent.generations <= GenerationsAllowed(cfg, n, s)
    && s.spent.branches <= 1 && s.spent.tickets <= 1
    && s.spent.prs <= 1 && s.spent.stalledPrs <= 1
    && (s.spent.stalledPrs > 0 ==> AfterStall(n) && !RoundsRemain(cfg, s))
    && (s.spent.prs > 0 ==> s.out.pr)
    && (s.out.pr ==> cfg.forge && cfg.repoUrl)
    && s.spent.tipRound <= s.rounds.roundsUsed
    && (s.rounds.roundsUsed == 0 && BeforeLoop(n) ==> s.merge.tip.None? && s.loop.trajectory.None?)
  }

  // -------------------------------------------------------------- node by node

  predicate AtNode(cfg: Config, n: Node, s: State) {
    match n
    case ResolveVisibility => s == Initial(cfg)
    case GenerateBranch => s == Initial(cfg) && cfg.arm == Authored
    case GenerateTicket =>
      cfg.arm == Authored && s == Initial(cfg).(spent := Initial(cfg).spent.(branches := 1))
    case PersistTicket => cfg.arm == Authored && cfg.persister && s.plan.spec && RoundOpen(s) && !s.loop.cleared
    case GenerateCriteria => cfg.arm == Authored && s.plan.spec && RoundOpen(s) && !s.loop.cleared
    case ValidateCriteria => cfg.arm == Authored && s.plan.spec && RoundOpen(s) && !s.loop.cleared
    case PersistArtifacts =>
      cfg.arm == Authored && cfg.persister && s.plan.spec && s.plan.criteria && RoundOpen(s) && !s.loop.cleared
    case Groom => s == Initial(cfg) && cfg.arm == ScopeRun
    case Prep => s == Initial(cfg) && cfg.arm == ScopeRun
    case RevalidateCriteria =>
      cfg.arm == Native && RoundOpen(s) && (s.loop.cleared <==> cfg.deliverOnly && !s.rounds.remediationTicket)
    case RuleOpenQuestions => cfg.arm == Native && s.plan.spec && s.plan.criteria && RoundOpen(s) && !s.loop.cleared
    case RunRalphLoop => s.plan.spec && s.plan.criteria && RoundOpen(s) && !s.loop.cleared
    case MergeToFeature =>
      && s.plan.spec && s.plan.criteria && RoundOpen(s) && s.merge.tip.None?
      && (!s.loop.cleared ==> s.loop.trajectory.Some?)
    case ScopeDone => cfg.arm == ScopeRun && Integrated(s)
    case ReviewAgainstTicket => Integrated(s)
    case LandBestIteration => Stalled(cfg, s) && s.merge.tip.None?
    case Remediate =>
      && RoundsRemain(cfg, s) && s.plan.spec && s.plan.criteria && !s.plan.infeasible && !s.plan.rulingUnrecorded
      && ((Integrated(s) && !s.merge.reviewPassed) || (!s.loop.cleared && !s.merge.merged && s.loop.trajectory.Some?))
    case FireComplete => FireEnded(cfg, s)
    case OpenPr => cfg.arm != Native && HandedOff(s) && !s.out.pr && cfg.forge && cfg.repoUrl
    case OpenStalledPr =>
      && cfg.arm != Native && Stalled(cfg, s) && cfg.forge && cfg.repoUrl && s.loop.best.Some?
      && (!PerRepository(cfg) ==> s.merge.tip.Some?)
    case MonitorCi =>
      && cfg.arm != Native && s.out.pr && cfg.forge && cfg.repoUrl
      && (HandedOff(s) || (Stalled(cfg, s) && s.merge.tip.Some?))
    case CommentFailure => cfg.arm != Native && s.out.pr && cfg.forge && cfg.repoUrl && FireEnded(cfg, s)
    case DeliveryRemediation => cfg.arm != Native && RoundsRemain(cfg, s) && HandedOff(s)
    case DeliveryComplete => cfg.arm != Native && FireEnded(cfg, s)
    case DeliverLane => cfg.arm == Native && FireEnded(cfg, s)
    case RemediateLane =>
      cfg.arm == Native && s.out.lane == CompletedLane(true) && RoundsRemain(cfg, s) && HandedOff(s)
    case LaneComplete =>
      cfg.arm == Native && FireEnded(cfg, s) && s.out.lane != PendingLane && (s.out.lane.CompletedLane? ==> cfg.forge)
    case End => FireEnded(cfg, s)
  }

  predicate Inv(cfg: Config, n: Node, s: State) {
    Ledger(cfg, n, s) && AtNode(cfg, n, s)
  }

  /** A scope run's stalled work landed nowhere. */
  predicate LandedNowhere(cfg: Config, n: Node, s: State) {
    PerRepository(cfg) && n == OpenStalledPr && s.merge.tip.None?
  }

  // ------------------------------------------------------------------ preservation

  /** A native lane was built without its rulings reader. */
  predicate Unruled(cfg: Config, n: Node) {
    cfg.arm == Native && !cfg.rulings && n == RuleOpenQuestions
  }

  /** A native lane on a forge has something to publish and no repository to publish it in. */
  predicate Unhoused(cfg: Config, n: Node, s: State) {
    cfg.arm == Native && cfg.forge && !cfg.repoUrl && n == DeliverLane && (HandedOff(s) || ReadsAsStalled(s))
  }

  /** The preconditions of its own a node can find unmet. */
  predicate Unprovided(cfg: Config, n: Node, s: State) {
    LandedNowhere(cfg, n, s) || Unruled(cfg, n) || Unhoused(cfg, n, s)
  }

  /** A node whose invariant holds, a collaborator's fault, or a precondition that was not provided. */
  ghost predicate Leads(cfg: Config, n: Node, s: State, p: Progress) {
    match p
    case On(next, state) => Inv(cfg, next, state)
    case Stopped(fault) => fault == Foreign || (fault == Unmet(n) && Unprovided(cfg, n, s))
  }

  /** Where a step may lead. */
  ghost function Sound(cfg: Config, n: Node, s: State): iset<Progress> {
    iset p: Progress | Leads(cfg, n, s, p)
  }

  ghost function HoldingAt(cfg: Config, n: Node): iset<State> {
    iset s: State | Inv(cfg, n, s)
  }

  lemma LeadsOn(cfg: Config, n: Node, s: State, p: Progress, m: Node, next: State)
    requires p == On(m, next) && next in HoldingAt(cfg, m)
    ensures p in Sound(cfg, n, s)
  {
  }

  lemma InitialHolds(cfg: Config)
    ensures Inv(cfg, RouteEntry(cfg, Initial(cfg)), Initial(cfg))
  {
  }

  lemma VisibilityKeeps(cfg: Config, s: State, a: Answer)
    requires Composed(cfg) && Possible(cfg, ResolveVisibility, a) && Inv(cfg, ResolveVisibility, s)
    ensures Step(cfg, ResolveVisibility, s, a) in Sound(cfg, ResolveVisibility, s)
  {
  }

  lemma BranchKeeps(cfg: Config, s: State, a: Answer)
    requires Composed(cfg) && Possible(cfg, GenerateBranch, a) && Inv(cfg, GenerateBranch, s)
    ensures Step(cfg, GenerateBranch, s, a) in Sound(cfg, GenerateBranch, s)
  {
  }

  lemma TicketKeeps(cfg: Config, s: State, a: Answer)
    requires Composed(cfg) && Possible(cfg, GenerateTicket, a) && Inv(cfg, GenerateTicket, s)
    ensures Step(cfg, GenerateTicket, s, a) in Sound(cfg, GenerateTicket, s)
  {
  }

  lemma GenerationKeeps(cfg: Config, n: Node, s: State, a: Answer)
    requires Composed(cfg) && Possible(cfg, n, a) && Inv(cfg, n, s)
    requires n == PersistTicket || n == GenerateCriteria
    ensures Step(cfg, n, s, a) in Sound(cfg, n, s)
  {
  }

  lemma SweepKeeps(cfg: Config, s: State, a: Answer)
    requires Composed(cfg) && Possible(cfg, ValidateCriteria, a) && Inv(cfg, ValidateCriteria, s)
    ensures Step(cfg, ValidateCriteria, s, a) in Sound(cfg, ValidateCriteria, s)
  {
  }

  lemma PersistKeeps(cfg: Config, s: State, a: Answer)
    requires Composed(cfg) && Possible(cfg, PersistArtifacts, a) && Inv(cfg, PersistArtifacts, s)
    ensures Step(cfg, PersistArtifacts, s, a) in Sound(cfg, PersistArtifacts, s)
  {
  }

  lemma ScopeEntryKeeps(cfg: Config, n: Node, s: State, a: Answer)
    requires Composed(cfg) && Possible(cfg, n, a) && Inv(cfg, n, s)
    requires n == Groom || n == Prep
    ensures Step(cfg, n, s, a) in Sound(cfg, n, s)
  {
  }

  lemma RevalidationKeeps(cfg: Config, s: State, a: Answer)
    requires Composed(cfg) && Possible(cfg, RevalidateCriteria, a) && Inv(cfg, RevalidateCriteria, s)
    ensures Step(cfg, RevalidateCriteria, s, a) in Sound(cfg, RevalidateCriteria, s)
  {
  }

  lemma QuestionsKeep(cfg: Config, s: State, a: Answer)
    requires Composed(cfg) && Possible(cfg, RuleOpenQuestions, a) && Inv(cfg, RuleOpenQuestions, s)
    ensures Step(cfg, RuleOpenQuestions, s, a) in Sound(cfg, RuleOpenQuestions, s)
  {
  }

  lemma TimesOneMore(k: nat, m: nat)
    ensures Times(k + 1, m) == Times(k, m) + m
  {
  }

  lemma LoopLedger(cfg: Config, s: State, iteration: nat, cleared: bool, trajectory: Trajectory)
    requires Ledger(cfg, RunRalphLoop, s) && iteration <= LoopBound(cfg)
    ensures Ledger(cfg, MergeToFeature, Implemented(s, iteration, cleared, trajectory))
  {
    var next := Implemented(s, iteration, cleared, trajectory);
    assert next.loop.iterations <= Times(next.spent.loops, LoopBound(cfg)) by {
      TimesOneMore(s.spent.loops, LoopBound(cfg));
    }
  }

  lemma LoopKeeps(cfg: Config, s: State, a: Answer)
    requires Composed(cfg) && Possible(cfg, RunRalphLoop, a) && Inv(cfg, RunRalphLoop, s)
    ensures Step(cfg, RunRalphLoop, s, a) in Sound(cfg, RunRalphLoop, s)
  {
    if a != Refused {
      LoopLedger(cfg, s, a.iteration, a.cleared, a.trajectory);
      assert Step(cfg, RunRalphLoop, s, a) == On(MergeToFeature, Implemented(s, a.iteration, a.cleared, a.trajectory));
    }
  }

  lemma MergeKeeps(cfg: Config, s: State, a: Answer)
    requires Composed(cfg) && Possible(cfg, MergeToFeature, a) && Inv(cfg, MergeToFeature, s)
    ensures Step(cfg, MergeToFeature, s, a) in Sound(cfg, MergeToFeature, s)
  {
    if a != Refused {
      if !s.loop.cleared {
        LoopExitKeeps(cfg, s, a);
      } else {
        ConsolidationKeeps(cfg, s, a.outcomes, a.baseTip);
      }
    }
  }

  lemma LoopExitKeeps(cfg: Config, s: State, a: Answer)
    requires Inv(cfg, MergeToFeature, s) && !s.loop.cleared && a != Refused
    ensures Step(cfg, MergeToFeature, s, a) in Sound(cfg, MergeToFeature, s)
  {
    assert Exec(cfg, MergeToFeature, s, a) == Writes(LoopExit(s));
  }

  lemma ConsolidationKeeps(cfg: Config, s: State, outcomes: seq<Consolidation>, baseTip: Option<Sha>)
    requires Inv(cfg, MergeToFeature, s) && s.loop.cleared
    ensures Step(cfg, MergeToFeature, s, Consolidated(outcomes, baseTip)) in Sound(cfg, MergeToFeature, s)
  {
    assert Exec(cfg, MergeToFeature, s, Consolidated(outcomes, baseTip)) == Merge(cfg, s, outcomes, baseTip);
  }

  lemma ScopeDoneKeeps(cfg: Config, s: State, a: Answer)
    requires Composed(cfg) && Possible(cfg, ScopeDone, a) && Inv(cfg, ScopeDone, s)
    ensures Step(cfg, ScopeDone, s, a) in Sound(cfg, ScopeDone, s)
  {
  }

  lemma ReviewKeeps(cfg: Config, s: State, a: Answer)
    requires Composed(cfg) && Possible(cfg, ReviewAgainstTicket, a) && Inv(cfg, ReviewAgainstTicket, s)
    ensures Step(cfg, ReviewAgainstTicket, s, a) in Sound(cfg, ReviewAgainstTicket, s)
  {
  }

  lemma LandKeeps(cfg: Config, s: State, a: Answer)
    requires Composed(cfg) && Possible(cfg, LandBestIteration, a) && Inv(cfg, LandBestIteration, s)
    ensures Step(cfg, LandBestIteration, s, a) in Sound(cfg, LandBestIteration, s)
  {
  }

  lemma GenerationsOfARound(cfg: Config, n: Node, s: State)
    requires OpensRound(n)
    ensures GenerationsAllowed(cfg, n, s) == Times(s.rounds.roundsUsed + 1, cfg.regenerationMax + 1)
  {
  }

  lemma GenerationsBeforeARound(cfg: Config, s: State)
    requires s.plan.regenerations == 0
    ensures Times(s.rounds.roundsUsed, cfg.regenerationMax + 1) <= GenerationsAllowed(cfg, CriteriaGate(cfg), s)
  {
  }

  lemma DraftLedger(cfg: Config, n: Node, s: State)
    requires Ledger(cfg, n, s) && OpensRound(n) && RoundsRemain(cfg, s)
    ensures Ledger(cfg, CriteriaGate(cfg), Draft(cfg, s))
  {
    var next := Draft(cfg, s);
    GenerationsOfARound(cfg, n, s);
    GenerationsBeforeARound(cfg, next);
    assert next.spent == s.spent && next.out == s.out && next.rounds == Rounds(s.rounds.roundsUsed + 1, true);
    assert !BeforeLoop(n) && BeforeLoop(CriteriaGate(cfg));
  }

  /** A round opened from anywhere re-enters at the criteria gate. */
  lemma DraftHolds(cfg: Config, n: Node, s: State)
    requires Ledger(cfg, n, s) && OpensRound(n) && RoundsRemain(cfg, s)
    requires s.plan.spec && s.plan.criteria && !s.plan.infeasible && !s.plan.rulingUnrecorded
    ensures Inv(cfg, CriteriaGate(cfg), Draft(cfg, s))
  {
    DraftLedger(cfg, n, s);
  }

  lemma DraftKeeps(cfg: Config, n: Node, s: State, a: Answer)
    requires Composed(cfg) && Possible(cfg, n, a) && Inv(cfg, n, s) && OpensRound(n)
    ensures Step(cfg, n, s, a) in Sound(cfg, n, s)
  {
    DraftHolds(cfg, n, s);
    if a != Refused {
      assert Step(cfg, n, s, a) == On(CriteriaGate(cfg), Draft(cfg, s));
    }
  }

  /** The classifiers find a disposition for every way the fire ends. */
  lemma EndedIsClassified(cfg: Config, s: State)
    requires FireEnded(cfg, s)
    ensures Classify(s).Some? && ClassifyAuthored(s).Some?
    ensures Classify(s).value == HandedOffForDelivery <==> HandedOff(s)
  {
  }

  /** Past the loop a state's ledger stands wherever it moves, once a stall has only its end before it. */
  lemma LedgerStands(cfg: Config, n: Node, m: Node, s: State)
    requires Ledger(cfg, n, s) && !BeforeLoop(n) && !BeforeLoop(m) && (AfterStall(n) ==> AfterStall(m))
    ensures Ledger(cfg, m, s)
  {
    assert GenerationsAllowed(cfg, m, s) == GenerationsAllowed(cfg, n, s);
  }

  lemma AfterFireHolds(cfg: Config, s: State)
    requires Composed(cfg) && FireEnded(cfg, s) && cfg.arm != Native && (s.out.pr ==> OnForge(cfg))
    ensures AtNode(cfg, RouteAfterFire(cfg, s), s)
    ensures !BeforeLoop(RouteAfterFire(cfg, s))
  {
  }

  lemma FireEndKeeps(cfg: Config, s: State, a: Answer)
    requires Composed(cfg) && Possible(cfg, FireComplete, a) && Inv(cfg, FireComplete, s)
    ensures Step(cfg, FireComplete, s, a) in Sound(cfg, FireComplete, s)
  {
    EndedIsClassified(cfg, s);
    if a != Refused {
      var next := if cfg.arm == Native then DeliverLane else RouteAfterFire(cfg, s);
      if cfg.arm != Native {
        AfterFireHolds(cfg, s);
      }
      LedgerStands(cfg, FireComplete, next, s);
      LeadsOn(cfg, FireComplete, s, Step(cfg, FireComplete, s, a), next, s);
    }
  }

  lemma OpenPrKeeps(cfg: Config, s: State, a: Answer)
    requires Composed(cfg) && Possible(cfg, OpenPr, a) && Inv(cfg, OpenPr, s)
    ensures Step(cfg, OpenPr, s, a) in Sound(cfg, OpenPr, s)
  {
  }

  lemma OpenStalledPrKeeps(cfg: Config, s: State, a: Answer)
    requires Composed(cfg) && Possible(cfg, OpenStalledPr, a) && Inv(cfg, OpenStalledPr, s)
    ensures Step(cfg, OpenStalledPr, s, a) in Sound(cfg, OpenStalledPr, s)
  {
  }

  lemma ChecksKeep(cfg: Config, s: State, a: Answer)
    requires Composed(cfg) && Possible(cfg, MonitorCi, a) && Inv(cfg, MonitorCi, s)
    ensures Step(cfg, MonitorCi, s, a) in Sound(cfg, MonitorCi, s)
  {
  }

  lemma CommentKeeps(cfg: Config, s: State, a: Answer)
    requires Composed(cfg) && Possible(cfg, CommentFailure, a) && Inv(cfg, CommentFailure, s)
    ensures Step(cfg, CommentFailure, s, a) in Sound(cfg, CommentFailure, s)
  {
    if a != Refused {
      LedgerStands(cfg, CommentFailure, DeliveryComplete, s);
      LeadsOn(cfg, CommentFailure, s, Step(cfg, CommentFailure, s, a), DeliveryComplete, s);
    }
  }

  /** A classified state goes through its closing node to the end. */
  lemma Closes(cfg: Config, n: Node, s: State)
    requires Classify(s).Some? && ClassifyAuthored(s).Some?
    requires n == DeliveryComplete || n == LaneComplete
    requires n == LaneComplete ==> s.out.lane != PendingLane && (s.out.lane.CompletedLane? ==> cfg.forge)
    ensures Step(cfg, n, s, Done) == On(End, s)
  {
  }

  lemma ClosingHolds(cfg: Config, s: State)
    requires Ledger(cfg, End, s) && FireEnded(cfg, s)
    ensures s in HoldingAt(cfg, End)
  {
    assert AtNode(cfg, End, s);
  }

  lemma ClosingKeeps(cfg: Config, n: Node, s: State, a: Answer)
    requires Composed(cfg) && Possible(cfg, n, a) && Inv(cfg, n, s) && (n == DeliveryComplete || n == LaneComplete)
    ensures Step(cfg, n, s, a) in Sound(cfg, n, s)
  {
    if a != Refused {
      EndedIsClassified(cfg, s);
      Closes(cfg, n, s);
      LedgerStands(cfg, n, End, s);
      ClosingHolds(cfg, s);
      LeadsOn(cfg, n, s, Step(cfg, n, s, a), End, s);
    }
  }

  /** What the lane's delivery decides leads on: back into the fire with a round left, or to the end. */
  lemma DecidedHolds(cfg: Config, s: State, lane: LanePhase)
    requires Inv(cfg, DeliverLane, s) && lane != PendingLane && (lane.CompletedLane? ==> cfg.forge)
    requires lane == CompletedLane(true) ==> HandedOff(s) && RoundsRemain(cfg, s)
    ensures Inv(cfg, if lane == CompletedLane(true) then RemediateLane else LaneComplete, WithLane(s, lane))
  {
    var next := if lane == CompletedLane(true) then RemediateLane else LaneComplete;
    LedgerStands(cfg, DeliverLane, next, s);
    assert Ledger(cfg, next, WithLane(s, lane));
  }

  lemma DeliverKeeps(cfg: Config, s: State, a: Answer)
    requires Composed(cfg) && Possible(cfg, DeliverLane, a) && Inv(cfg, DeliverLane, s)
    ensures Step(cfg, DeliverLane, s, a) in Sound(cfg, DeliverLane, s)
  {
    if a != Refused {
      DeliverWrites(cfg, s, a.red);
      assert Exec(cfg, DeliverLane, s, a) == Deliver(cfg, s, a.red);
      if Deliver(cfg, s, a.red).Writes? {
        var lane := Deliver(cfg, s, a.red).state.out.lane;
        DecidedHolds(cfg, s, lane);
        assert Step(cfg, DeliverLane, s, a) ==
          On(if lane == CompletedLane(true) then RemediateLane else LaneComplete, WithLane(s, lane));
      }
    }
  }

  lemma DeliverWrites(cfg: Config, s: State, red: Option<RedClass>)
    requires cfg.arm == Native && FireEnded(cfg, s)
    ensures Unhoused(cfg, DeliverLane, s) ==> Deliver(cfg, s, red) == Raises(Unmet(DeliverLane))
    ensures !Unhoused(cfg, DeliverLane, s) ==> Deliver(cfg, s, red).Writes?
    ensures !Unhoused(cfg, DeliverLane, s) ==>
      var lane := Deliver(cfg, s, red).state.out.lane;
      && Deliver(cfg, s, red).state == WithLane(s, lane)
      && lane != PendingLane
      && (lane.CompletedLane? ==> cfg.forge)
      && (lane == CompletedLane(true) ==> HandedOff(s) && RoundsRemain(cfg, s))
  {
    EndedIsClassified(cfg, s);
  }

  /** The rulings step raises exactly when the lane was built without its reader. */
  lemma RulingRaisesIffUnread(cfg: Config, s: State, a: Answer)
    requires Possible(cfg, RuleOpenQuestions, a) && a != Refused && Inv(cfg, RuleOpenQuestions, s)
    ensures Step(cfg, RuleOpenQuestions, s, a) == Stopped(Unmet(RuleOpenQuestions)) <==> !cfg.rulings
  {
    assert CanImplement(s);
  }

  /** The lane's delivery raises exactly when a forge is to publish its work and the lane has no repository. */
  lemma DeliveryRaisesIffUnhoused(cfg: Config, s: State, a: Answer)
    requires Possible(cfg, DeliverLane, a) && a != Refused && Inv(cfg, DeliverLane, s)
    ensures Step(cfg, DeliverLane, s, a) == Stopped(Unmet(DeliverLane)) <==>
      cfg.forge && !cfg.repoUrl && (HandedOff(s) || ReadsAsStalled(s))
  {
    DeliverWrites(cfg, s, a.red);
    assert Exec(cfg, DeliverLane, s, a) == Deliver(cfg, s, a.red);
  }

  lemma EarlyStepKeeps(cfg: Config, n: Node, s: State, a: Answer)
    requires Composed(cfg) && Possible(cfg, n, a) && Inv(cfg, n, s)
    requires BeforeGate(n) || n == ValidateCriteria
    ensures Step(cfg, n, s, a) in Sound(cfg, n, s)
  {
    match n
    case ResolveVisibility => VisibilityKeeps(cfg, s, a);
    case GenerateBranch => BranchKeeps(cfg, s, a);
    case GenerateTicket => TicketKeeps(cfg, s, a);
    case PersistTicket => GenerationKeeps(cfg, n, s, a);
    case GenerateCriteria => GenerationKeeps(cfg, n, s, a);
    case ValidateCriteria => SweepKeeps(cfg, s, a);
  }

  lemma EntryStepKeeps(cfg: Config, n: Node, s: State, a: Answer)
    requires Composed(cfg) && Possible(cfg, n, a) && Inv(cfg, n, s)
    requires BeforeLoop(n) && !BeforeGate(n) && n != ValidateCriteria
    ensures Step(cfg, n, s, a) in Sound(cfg, n, s)
  {
    match n
    case PersistArtifacts => PersistKeeps(cfg, s, a);
    case Groom => ScopeEntryKeeps(cfg, n, s, a);
    case Prep => ScopeEntryKeeps(cfg, n, s, a);
    case RevalidateCriteria => RevalidationKeeps(cfg, s, a);
    case RuleOpenQuestions => QuestionsKeep(cfg, s, a);
    case RunRalphLoop => LoopKeeps(cfg, s, a);
  }

  lemma LateStepKeeps(cfg: Config, n: Node, s: State, a: Answer)
    requires Composed(cfg) && Possible(cfg, n, a) && Inv(cfg, n, s) && InFire(n)
    ensures Step(cfg, n, s, a) in Sound(cfg, n, s)
  {
    match n
    case MergeToFeature => MergeKeeps(cfg, s, a);
    case ScopeDone => ScopeDoneKeeps(cfg, s, a);
    case ReviewAgainstTicket => ReviewKeeps(cfg, s, a);
    case LandBestIteration => LandKeeps(cfg, s, a);
    case Remediate => DraftKeeps(cfg, n, s, a);
    case FireComplete => FireEndKeeps(cfg, s, a);
  }

  lemma DeliveryStepKeeps(cfg: Config, n: Node, s: State, a: Answer)
    requires Composed(cfg) && Possible(cfg, n, a) && Inv(cfg, n, s)
    requires !BeforeLoop(n) && !InFire(n) && n != End
    ensures Step(cfg, n, s, a) in Sound(cfg, n, s)
  {
    match n
    case OpenPr => OpenPrKeeps(cfg, s, a);
    case OpenStalledPr => OpenStalledPrKeeps(cfg, s, a);
    case MonitorCi => ChecksKeep(cfg, s, a);
    case CommentFailure => CommentKeeps(cfg, s, a);
    case DeliveryRemediation => DraftKeeps(cfg, n, s, a);
    case DeliveryComplete => ClosingKeeps(cfg, n, s, a);
    case DeliverLane => DeliverKeeps(cfg, s, a);
    case RemediateLane => DraftKeeps(cfg, n, s, a);
    case LaneComplete => ClosingKeeps(cfg, n, s, a);
  }
}
