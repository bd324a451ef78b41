/** Whole runs: where they end, what they never raise on, and what they cost. */
module FireRuns {
  import opened Options
  import opened FireGraph
  import opened FireTermination
  import opened FireInvariant

  /** At every node the run reaches, the answer is one its collaborator can give. */
  ghost predicate Answered(cfg: Config, answers: nat -> Answer) {
    forall k: nat :: After(cfg, answers, k).On? ==> Possible(cfg, After(cfg, answers, k).node, answers(k))
  }

  lemma StepKeeps(cfg: Config, n: Node, s: State, a: Answer)
    requires Composed(cfg) && Possible(cfg, n, a) && Inv(cfg, n, s) && n != End
    ensures Step(cfg, n, s, a) in Sound(cfg, n, s)
  {
    if BeforeGate(n) || n == ValidateCriteria {
      EarlyStepKeeps(cfg, n, s, a);
    } else if BeforeLoop(n) {
      EntryStepKeeps(cfg, n, s, a);
    } else if InFire(n) {
      LateStepKeeps(cfg, n, s, a);
    } else {
      DeliveryStepKeeps(cfg, n, s, a);
    }
  }

  // ---------------------------------------------------- which round a tip is from

  /** The recorded tip was set in an earlier round than the current one. */
  predicate TipIsStale(s: State) {
    s.merge.tip.Some? && s.spent.tipRound < s.rounds.roundsUsed
  }

  /** Nothing but the end of the run is left. */
  predicate Closes(n: Node) {
    n == CommentFailure || n == DeliveryComplete || n == LaneComplete || n == End
  }

  /** Until a run closes: before a round's loop, a tip can only be an earlier round's; after it, the round's own. */
  predicate Dated(n: Node, s: State) {
    !Closes(n) && s.merge.tip.Some? ==>
      (TipIsStale(s) <==> BeforeLoop(n) || s.plan.rulingUnrecorded || s.plan.infeasible)
  }

  ghost predicate LeadsDated(p: Progress) {
    p.On? ==> Dated(p.node, p.state)
  }

  ghost function DatedProgress(): iset<Progress> {
    iset p: Progress | LeadsDated(p)
  }

  /** Nothing a tip is dated by has moved, and the loop is as far off as it was. */
  predicate SameDates(n: Node, s: State, p: Progress) {
    p.On? ==>
      && p.state.merge.tip == s.merge.tip && p.state.spent.tipRound == s.spent.tipRound && p.state.rounds == s.rounds
      && p.state.plan.rulingUnrecorded == s.plan.rulingUnrecorded && p.state.plan.infeasible == s.plan.infeasible
      && (BeforeLoop(p.node) <==> BeforeLoop(n))
  }

  ghost function SameDated(n: Node, s: State): iset<Progress> {
    iset p: Progress | SameDates(n, s, p)
  }

  lemma SameDatesKeep(n: Node, s: State, p: Progress)
    requires !Closes(n) && Dated(n, s) && p in SameDated(n, s)
    ensures p in DatedProgress()
  {
  }

  predicate MovesDates(n: Node) {
    || n == ValidateCriteria || n == Prep || n == RevalidateCriteria || n == RuleOpenQuestions || n == RunRalphLoop
    || n == MergeToFeature || n == LandBestIteration || OpensRound(n)
  }

  lemma PassingDatesStand(cfg: Config, n: Node, s: State, a: Answer)
    requires n == ResolveVisibility || n == Groom || n == PersistTicket || n == PersistArtifacts
    ensures Step(cfg, n, s, a) in SameDated(n, s)
  {
  }

  lemma AuthoringDatesStand(cfg: Config, n: Node, s: State, a: Answer)
    requires n == GenerateBranch || n == GenerateTicket || n == GenerateCriteria
    ensures Step(cfg, n, s, a) in SameDated(n, s)
  {
  }

  lemma FireDatesStand(cfg: Config, n: Node, s: State, a: Answer)
    requires InFire(n) && !MovesDates(n)
    ensures Step(cfg, n, s, a) in SameDated(n, s)
  {
  }

  lemma PublishingDatesStand(cfg: Config, n: Node, s: State, a: Answer)
    requires n == OpenPr || n == OpenStalledPr || n == MonitorCi
    ensures Step(cfg, n, s, a) in SameDated(n, s)
  {
  }

  lemma ClosingStaysClosed(cfg: Config, n: Node, s: State, a: Answer)
    requires Closes(n)
    ensures Step(cfg, n, s, a) in DatedProgress()
  {
  }

  lemma LaneDatesStand(cfg: Config, s: State, a: Answer)
    ensures Step(cfg, DeliverLane, s, a) in SameDated(DeliverLane, s)
  {
  }

  lemma SweepKeepsDates(cfg: Config, s: State, a: Answer)
    requires Inv(cfg, ValidateCriteria, s) && Dated(ValidateCriteria, s)
    ensures Step(cfg, ValidateCriteria, s, a) in DatedProgress()
  {
  }

  lemma PrepKeepsDates(cfg: Config, s: State, a: Answer)
    requires Inv(cfg, Prep, s) && Dated(Prep, s)
    ensures Step(cfg, Prep, s, a) in DatedProgress()
  {
  }

  lemma RevalidationKeepsDates(cfg: Config, s: State, a: Answer)
    requires Inv(cfg, RevalidateCriteria, s) && Dated(RevalidateCriteria, s)
    ensures Step(cfg, RevalidateCriteria, s, a) in DatedProgress()
  {
  }

  lemma RulingKeepsDates(cfg: Config, s: State, a: Answer)
    requires Inv(cfg, RuleOpenQuestions, s) && Dated(RuleOpenQuestions, s)
    ensures Step(cfg, RuleOpenQuestions, s, a) in DatedProgress()
  {
  }

  lemma LoopKeepsDates(cfg: Config, s: State, a: Answer)
    requires Inv(cfg, RunRalphLoop, s) && Dated(RunRalphLoop, s)
    ensures Step(cfg, RunRalphLoop, s, a) in DatedProgress()
  {
  }

  lemma MergeKeepsDates(cfg: Config, s: State, a: Answer)
    requires Inv(cfg, MergeToFeature, s) && Dated(MergeToFeature, s)
    ensures Step(cfg, MergeToFeature, s, a) in DatedProgress()
  {
  }

  lemma LandingKeepsDates(cfg: Config, s: State, a: Answer)
    requires Inv(cfg, LandBestIteration, s) && Dated(LandBestIteration, s)
    ensures Step(cfg, LandBestIteration, s, a) in DatedProgress()
  {
  }

  lemma DraftKeepsDates(cfg: Config, n: Node, s: State, a: Answer)
    requires OpensRound(n) && Ledger(cfg, n, s) && !s.plan.rulingUnrecorded && !s.plan.infeasible
    ensures Step(cfg, n, s, a) in DatedProgress()
  {
  }

  lemma OpensUnhalted(cfg: Config, n: Node, s: State)
    requires OpensRound(n) && Inv(cfg, n, s)
    ensures !s.plan.rulingUnrecorded && !s.plan.infeasible
  {
  }

  lemma StepKeepsDates(cfg: Config, n: Node, s: State, a: Answer)
    requires Inv(cfg, n, s) && Dated(n, s) && n != End
    ensures Step(cfg, n, s, a) in DatedProgress()
  {
    if MovesDates(n) {
      MovedDatesKeep(cfg, n, s, a);
    } else if Closes(n) {
      ClosingStaysClosed(cfg, n, s, a);
    } else {
      DatesStand(cfg, n, s, a);
      SameDatesKeep(n, s, Step(cfg, n, s, a));
    }
  }

  lemma DatesStand(cfg: Config, n: Node, s: State, a: Answer)
    requires !Closes(n) && !MovesDates(n)
    ensures Step(cfg, n, s, a) in SameDated(n, s)
  {
    if InFire(n) {
      FireDatesStand(cfg, n, s, a);
    } else if n == GenerateBranch || n == GenerateTicket || n == GenerateCriteria {
      AuthoringDatesStand(cfg, n, s, a);
    } else if BeforeLoop(n) {
      PassingDatesStand(cfg, n, s, a);
    } else if n == OpenPr || n == OpenStalledPr || n == MonitorCi {
      PublishingDatesStand(cfg, n, s, a);
    } else {
      LaneDatesStand(cfg, s, a);
    }
  }

  lemma MovedDatesKeep(cfg: Config, n: Node, s: State, a: Answer)
    requires Inv(cfg, n, s) && Dated(n, s) && MovesDates(n)
    ensures Step(cfg, n, s, a) in DatedProgress()
  {
    if OpensRound(n) {
      OpensUnhalted(cfg, n, s);
      DraftKeepsDates(cfg, n, s, a);
    } else {
      match n
      case ValidateCriteria => SweepKeepsDates(cfg, s, a);
      case Prep => PrepKeepsDates(cfg, s, a);
      case RevalidateCriteria => RevalidationKeepsDates(cfg, s, a);
      case RuleOpenQuestions => RulingKeepsDates(cfg, s, a);
      case RunRalphLoop => LoopKeepsDates(cfg, s, a);
      case MergeToFeature => MergeKeepsDates(cfg, s, a);
      case LandBestIteration => LandingKeepsDates(cfg, s, a);
    }
  }

  // ------------------------------------------------------------------------ safety

  /**
   What can stop a run: a collaborator's failure, a scope run whose stalled work landed nowhere, or a
   native lane built without its rulings reader, or on a forge without a repository.
   */
  predicate Excused(cfg: Config, fault: Fault) {
    || fault == Foreign
    || (PerRepository(cfg) && fault == Unmet(OpenStalledPr))
    || (cfg.arm == Native && !cfg.rulings && fault == Unmet(RuleOpenQuestions))
    || (cfg.arm == Native && cfg.forge && !cfg.repoUrl && fault == Unmet(DeliverLane))
  }

  /** The invariants hold, or the run has stopped on an excused fault. */
  ghost predicate Safe(cfg: Config, p: Progress) {
    match p
    case On(n, s) => Inv(cfg, n, s) && Dated(n, s)
    case Stopped(fault) => Excused(cfg, fault)
  }

  ghost function SafeProgress(cfg: Config): iset<Progress> {
    iset p: Progress | Safe(cfg, p)
  }

  lemma OnwardIsSafe(cfg: Config, p: Progress, a: Answer)
    requires Composed(cfg) && p in SafeProgress(cfg) && (p.On? ==> Possible(cfg, p.node, a))
    ensures Onward(cfg, p, a) in SafeProgress(cfg)
  {
    if p.On? && p.node != End {
      StepKeeps(cfg, p.node, p.state, a);
      StepKeepsDates(cfg, p.node, p.state, a);
      SoundIsSafe(cfg, p.node, p.state, Step(cfg, p.node, p.state, a));
    }
  }

  lemma SoundIsSafe(cfg: Config, n: Node, s: State, p: Progress)
    requires p in Sound(cfg, n, s) && p in DatedProgress()
    ensures p in SafeProgress(cfg)
  {
  }

  lemma EntryIsSafe(cfg: Config)
    ensures On(RouteEntry(cfg, Initial(cfg)), Initial(cfg)) in SafeProgress(cfg)
  {
    InitialHolds(cfg);
    assert Safe(cfg, On(RouteEntry(cfg, Initial(cfg)), Initial(cfg)));
  }

  lemma AfterOneMore(cfg: Config, answers: nat -> Answer, k: nat)
    ensures After(cfg, answers, k + 1) == Onward(cfg, After(cfg, answers, k), answers(k))
  {
  }

  lemma OneMoreIsSafe(cfg: Config, answers: nat -> Answer, k: nat)
    requires Composed(cfg) && Answered(cfg, answers)
    requires After(cfg, answers, k) in SafeProgress(cfg)
    ensures After(cfg, answers, k + 1) in SafeProgress(cfg)
  {
    var p := After(cfg, answers, k);
    OnwardIsSafe(cfg, p, answers(k));
    AfterOneMore(cfg, answers, k);
  }

  /** After any number of steps a run is safe. */
  lemma {:induction false} EveryStepIsSafe(cfg: Config, answers: nat -> Answer, k: nat)
    requires Composed(cfg) && Answered(cfg, answers)
    ensures After(cfg, answers, k) in SafeProgress(cfg)
  {
    if k == 0 {
      EntryIsSafe(cfg);
    } else {
      EveryStepIsSafe(cfg, answers, k - 1);
      OneMoreIsSafe(cfg, answers, k - 1);
    }
  }

  function Standing(ending: Ending): Progress {
    match ending
    case Ended(s) => On(End, s)
    case Raised(fault) => Stopped(fault)
  }

  /** The measure of a standing; a stopped one has none left. */
  function Measure(cfg: Config, p: Progress): (nat, nat, nat) {
    if p.Stopped? then (0, 0, 0)
    else (RoundsLeft(cfg, p.node, p.state), RegenerationsLeft(cfg, p.state), Rank(p.node))
  }

  function Rest(cfg: Config, p: Progress, answers: nat -> Answer, k: nat): Progress {
    if p.Stopped? then p else Standing(Drive(cfg, p.node, p.state, answers, k))
  }

  lemma RestUnfolds(cfg: Config, p: Progress, answers: nat -> Answer, k: nat)
    requires p.On? && p.node != End
    ensures Rest(cfg, p, answers, k) == Rest(cfg, Onward(cfg, p, answers(k)), answers, k + 1)
  {
  }

  lemma OnwardDrops(cfg: Config, p: Progress, a: Answer)
    requires p.On? && p.node != End
    ensures var q := Onward(cfg, p, a);
      q.On? ==> var m, m' := Measure(cfg, p), Measure(cfg, q);
        m'.0 < m.0 || (m'.0 == m.0 && (m'.1 < m.1 || (m'.1 == m.1 && m'.2 < m.2)))
  {
    if Step(cfg, p.node, p.state, a).On? {
      MeasureDrops(cfg, p.node, p.state, a);
    }
  }

  /** The total run is what some finite number of steps comes to. */
  lemma {:induction false} StepsReach(cfg: Config, answers: nat -> Answer, k: nat, p: Progress)
    requires After(cfg, answers, k) == p
    ensures exists m: nat :: After(cfg, answers, m) == Rest(cfg, p, answers, k)
    decreases Measure(cfg, p).0, Measure(cfg, p).1, Measure(cfg, p).2, p.On?
  {
    if p.Stopped? || p.node == End {
      assert After(cfg, answers, k) == Rest(cfg, p, answers, k);
    } else {
      var q := After(cfg, answers, k + 1);
      RestUnfolds(cfg, p, answers, k);
      OnwardDrops(cfg, p, answers(k));
      StepsReach(cfg, answers, k + 1, q);
    }
  }

  // ------------------------------------------------------------------------ cost

  lemma {:induction false} TimesIsProduct(k: nat, m: nat)
    ensures Times(k, m) == k * m
  {
    if k > 0 {
      TimesIsProduct(k - 1, m);
    }
  }

  lemma {:induction false} TimesGrows(j: nat, k: nat, m: nat)
    requires j <= k
    ensures Times(j, m) <= Times(k, m)
  {
    if j < k {
      TimesGrows(j, k - 1, m);
    }
  }

  /** What a run of R remediation rounds and G regenerations may spend. */
  predicate WithinBudget(cfg: Config, s: State) {
    var rounds := cfg.remediationMax + 1;
    && s.rounds.roundsUsed <= cfg.remediationMax
    && s.spent.loops <= rounds
    && s.spent.generations <= rounds * (cfg.regenerationMax + 1)
    && s.loop.iterations <= rounds * LoopBound(cfg)
    && s.spent.branches <= 1 && s.spent.tickets <= 1
    && s.spent.prs <= 1 && s.spent.stalledPrs <= 1
    && (s.spent.stalledPrs > 0 ==> !RoundsRemain(cfg, s))
  }

  lemma WithinRounds(used: nat, spent: nat, most: nat, each: nat)
    requires used <= most && spent <= Times(used, each)
    ensures spent <= most * each
  {
    TimesGrows(used, most, each);
    TimesIsProduct(most, each);
  }

  lemma AllowedWithin(cfg: Config, n: Node, s: State)
    requires s.plan.regenerations <= cfg.regenerationMax
    ensures GenerationsAllowed(cfg, n, s) <= Times(s.rounds.roundsUsed + 1, cfg.regenerationMax + 1)
  {
    TimesOneMore(s.rounds.roundsUsed, cfg.regenerationMax + 1);
  }

  lemma GenerationsWithin(cfg: Config, n: Node, s: State)
    requires s.rounds.roundsUsed <= cfg.remediationMax
    requires s.spent.generations <= GenerationsAllowed(cfg, n, s) && s.plan.regenerations <= cfg.regenerationMax
    ensures s.spent.generations <= (cfg.remediationMax + 1) * (cfg.regenerationMax + 1)
  {
    AllowedWithin(cfg, n, s);
    WithinRounds(s.rounds.roundsUsed + 1, s.spent.generations, cfg.remediationMax + 1, cfg.regenerationMax + 1);
  }

  lemma LoopsWithin(cfg: Config, n: Node, s: State)
    requires s.rounds.roundsUsed <= cfg.remediationMax
    requires s.spent.loops <= LoopsAllowed(n, s) && s.loop.iterations <= Times(s.spent.loops, LoopBound(cfg))
    ensures s.spent.loops <= cfg.remediationMax + 1
    ensures s.loop.iterations <= (cfg.remediationMax + 1) * LoopBound(cfg)
  {
    WithinRounds(s.spent.loops, s.loop.iterations, cfg.remediationMax + 1, LoopBound(cfg));
  }

  ghost function WithinBudgets(cfg: Config): iset<State> {
    iset s: State | WithinBudget(cfg, s)
  }

  lemma LedgerIsWithinBudget(cfg: Config, n: Node, s: State)
    requires Ledger(cfg, n, s)
    ensures s in WithinBudgets(cfg)
  {
    GenerationsWithin(cfg, n, s);
    LoopsWithin(cfg, n, s);
  }

  /** Every state a run passes through is within its budget. */
  lemma SpendingIsBounded(cfg: Config, answers: nat -> Answer, k: nat)
    requires Composed(cfg) && Answered(cfg, answers) && After(cfg, answers, k).On?
    ensures After(cfg, answers, k).state in WithinBudgets(cfg)
  {
    EveryStepIsSafe(cfg, answers, k);
    SafeIsWithinBudget(cfg, After(cfg, answers, k));
  }

  lemma SafeIsWithinBudget(cfg: Config, p: Progress)
    requires p in SafeProgress(cfg) && p.On?
    ensures p.state in WithinBudgets(cfg)
  {
    LedgerIsWithinBudget(cfg, p.node, p.state);
  }

  /**
   A run ends in one of the five ways a fire can, with a disposition found and within budget,
   or stops on an excused fault.
   */
  ghost predicate EndsSafely(cfg: Config, ending: Ending) {
    match ending
    case Ended(s) =>
      && FireEnded(cfg, s) && RoundsCounted(s) && s in WithinBudgets(cfg)
      && Classify(s).Some? && ClassifyAuthored(s).Some?
    case Raised(fault) => Excused(cfg, fault)
  }

  ghost function SafeEndings(cfg: Config): iset<Ending> {
    iset ending: Ending | EndsSafely(cfg, ending)
  }

  lemma SafeStandingEndsSafely(cfg: Config, ending: Ending)
    requires Standing(ending) in SafeProgress(cfg)
    ensures ending in SafeEndings(cfg)
  {
    match ending
    case Raised(_) =>
    case Ended(s) =>
      EndedIsClassified(cfg, s);
      SafeIsWithinBudget(cfg, On(End, s));
  }

  /** Every run ends, and ends safely. */
  lemma RunEndsSafely(cfg: Config, answers: nat -> Answer)
    requires Composed(cfg) && Answered(cfg, answers)
    ensures Run(cfg, answers) in SafeEndings(cfg)
  {
    StepsReach(cfg, answers, 0, After(cfg, answers, 0));
    var m: nat :| After(cfg, answers, m) == Standing(Run(cfg, answers));
    EveryStepIsSafe(cfg, answers, m);
    SafeStandingEndsSafely(cfg, Run(cfg, answers));
  }

  // ---------------------------------------------- scope runs that land nowhere

  lemma {:induction false} NothingLandedIffAllDiverged(outcomes: seq<Consolidation>)
    ensures Landed(outcomes) == [] <==> forall o <- outcomes :: o.status == Divergent
  {
    if |outcomes| > 0 {
      NothingLandedIffAllDiverged(outcomes[1..]);
      assert outcomes == [outcomes[0]] + outcomes[1..];
    }
  }

  lemma LandingLeads(cfg: Config, s: State, outcomes: seq<Consolidation>, baseTip: Option<Sha>)
    requires PerRepository(cfg) && Publishes(cfg) && !Missing(outcomes)
    requires s.loop.best.Some? && s.loop.trajectory.Some? && s.merge.tip.None?
    ensures var next := if Landed(outcomes) == [] then s else WithTip(s, Landed(outcomes)[0]);
      Step(cfg, LandBestIteration, s, Consolidated(outcomes, baseTip)) == On(FireComplete, next)
  {
    assert Exec(cfg, LandBestIteration, s, Consolidated(outcomes, baseTip)) == Land(cfg, s, outcomes);
  }

  lemma StallLeads(cfg: Config, s: State)
    requires PerRepository(cfg) && Publishes(cfg) && Stalled(cfg, s) && s.loop.best.Some?
    ensures Step(cfg, FireComplete, s, Done) == On(OpenStalledPr, s)
    ensures Step(cfg, OpenStalledPr, s, Done) == Stopped(Unmet(OpenStalledPr)) <==> s.merge.tip.None?
  {
    assert FireEnded(cfg, s);
    EndedIsClassified(cfg, s);
  }

  /**
   A scope run over declared repositories, with a best commit to publish and a forge, raises at
   the stalled publication exactly when its work landed nowhere: no repository gained commits,
   or every one that did diverged.
   */
  lemma ScopeStallRaisesIffNothingLanded(cfg: Config, s: State, outcomes: seq<Consolidation>,
      baseTip: Option<Sha>) returns (landed: State)
    requires PerRepository(cfg) && Publishes(cfg) && !Missing(outcomes)
    requires Stalled(cfg, s) && s.merge.tip.None? && s.loop.best.Some?
    ensures Step(cfg, LandBestIteration, s, Consolidated(outcomes, baseTip)) == On(FireComplete, landed)
    ensures Step(cfg, FireComplete, landed, Done) == On(OpenStalledPr, landed)
    ensures Step(cfg, OpenStalledPr, landed, Done) == Stopped(Unmet(OpenStalledPr)) <==>
      !exists o <- outcomes :: o.status != Divergent
  {
    NothingLandedIffAllDiverged(outcomes);
    LandingLeads(cfg, s, outcomes, baseTip);
    landed := if Landed(outcomes) == [] then s else WithTip(s, Landed(outcomes)[0]);
    StallLeads(cfg, landed);
  }
}
