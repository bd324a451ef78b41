/**
 The fire graph inside the delivery graph, flattened to one state machine.

 Nodes read the run's state, take one answer from their collaborators (a session, the
 merger, the board, the forge) and write a partial update; routers read the state alone.
 Three compositions share the node set: the authored run, the scope run, and the
 tracker-native lane with its own delivery around it.
 */
module FireGraph {
  import opened Bounds
  import opened Options

  datatype Sha = Sha(id: nat)

  datatype Arm = Authored | ScopeRun | Native

  datatype Config = Config(
    arm: Arm,
    deliverOnly: bool,       // a native lane entered to deliver recorded work
    remediator: bool,
    remediationMax: nat,
    regenerationMax: nat,
    maxIterations: nat,
    forge: bool,             // the adapter behind pull requests, checks and visibility
    refPublisher: bool,
    persister: bool,
    repoUrl: bool,
    rulings: bool,
    declared: bool)          // the operation declares repositories, which only a scope run reads

  datatype Node =
    | ResolveVisibility
    | GenerateBranch | GenerateTicket | PersistTicket | GenerateCriteria | ValidateCriteria | PersistArtifacts
    | Groom | Prep
    | RevalidateCriteria | RuleOpenQuestions
    | RunRalphLoop | MergeToFeature | ScopeDone | ReviewAgainstTicket | LandBestIteration | Remediate | FireComplete
    | OpenPr | OpenStalledPr | MonitorCi | CommentFailure | DeliveryRemediation | DeliveryComplete
    | DeliverLane | RemediateLane | LaneComplete
    | End

  datatype CiStatus = NotMonitored | Passed | NotConfigured | Failed
  datatype RedClass = RunnerFlake | EnvironmentUnmet | WorkDefect | Unclassified

  datatype Trajectory = Trajectory(plateaued: bool, landable: Option<Sha>)

  datatype LanePhase = PendingLane | SkippedLane | CompletedLane(remediationPending: bool)

  /** What a run has spent: bookkeeping no node reads. */
  datatype Spent = Spent(
    branches: nat, tickets: nat, generations: nat, loops: nat, prs: nat, stalledPrs: nat,
    tipRound: int)           // the remediation round that set the current tip, -1 before any

  /** The subject and its criteria. */
  datatype Plan = Plan(
    spec: bool,                 // a fire spec is captured
    criteria: bool,             // a criterion set is recorded
    sweepDemands: Option<bool>, // the last sweep, and whether it demands regeneration
    regenerations: nat,
    infeasible: bool,
    rulingUnrecorded: bool)

  /** What the quality loop left. */
  datatype LoopFacts = LoopFacts(
    cleared: bool,              // the accept gate is cleared
    iterations: nat,
    best: Option<Sha>,
    trajectory: Option<Trajectory>)

  /** What consolidation and review left. */
  datatype MergeFacts = MergeFacts(
    tip: Option<Sha>,
    reviewBase: Option<Sha>,
    reviewHead: Option<Sha>,
    merged: bool,
    mergeError: bool,
    reviewPassed: bool)

  datatype Rounds = Rounds(roundsUsed: nat, remediationTicket: bool)

  /** What delivery left. */
  datatype Published = Published(
    pr: bool,                   // a pull request's url and number are recorded
    ciStatus: CiStatus,
    redClass: Option<RedClass>,
    runAbsent: bool,
    lane: LanePhase)

  /** The run's shared state, in the groups its nodes write together. */
  datatype State = State(
    plan: Plan, loop: LoopFacts, merge: MergeFacts, rounds: Rounds, out: Published, spent: Spent)

  function Initial(cfg: Config): State {
    State(
      Plan(false, false, None, 0, false, false),
      LoopFacts(cfg.arm == Native && cfg.deliverOnly, 0, None, None),
      MergeFacts(None, None, None, false, false, false),
      Rounds(0, false),
      Published(false, NotMonitored, None, false, PendingLane),
      Spent(0, 0, 0, 0, 0, 0, -1))
  }

  // ------------------------------------------------------------------- answers

  datatype MergeStatus = AlreadyIntegrated | FastForwarded | Divergent | SourceMissing

  datatype Consolidation = Consolidation(status: MergeStatus, tip: Sha)

  /** What a node's collaborators answered. */
  datatype Answer =
    | Refused                                   // a collaborator failed; the node raises
    | Done
    | Swept(demands: bool)
    | Prepped(found: bool)
    | Ruled(recorded: bool)
    | Looped(iteration: nat, cleared: bool, trajectory: Trajectory)
    | Consolidated(outcomes: seq<Consolidation>, baseTip: Option<Sha>)
    | Board(allDone: bool)
    | Reviewed(passed: bool)
    | Checked(status: CiStatus, red: Option<RedClass>, absent: bool)

  /** The most iterations one quality loop reports: it always runs one. */
  function LoopBound(cfg: Config): nat {
    AtLeastOne(cfg.maxIterations)
  }

  /** A scope run works in every declared repository; any other run in the one its request names. */
  predicate PerRepository(cfg: Config) {
    cfg.arm == ScopeRun && cfg.declared
  }

  /** The answers a node can get: what the collaborators' own contracts say. */
  predicate Possible(cfg: Config, n: Node, a: Answer) {
    a == Refused ||
    match n
    case ValidateCriteria => a.Swept?
    case Prep => a.Prepped?
    case RuleOpenQuestions => a.Ruled?
    case RunRalphLoop => a.Looped? && 1 <= a.iteration <= LoopBound(cfg)
    case MergeToFeature => a.Consolidated? && (PerRepository(cfg) || |a.outcomes| == 1)
    case LandBestIteration => a.Consolidated? && (PerRepository(cfg) || |a.outcomes| == 1)
    case ScopeDone => a.Board?
    case ReviewAgainstTicket => a.Reviewed?
    case MonitorCi => a.Checked?
    case DeliverLane => a.Checked?
    case _ => a == Done
  }

  // --------------------------------------------------------------------- nodes

  /** Why a node raised. */
  datatype Fault =
    | Unmet(at: Node)      // a precondition the node itself checks
    | Unclassifiable       // the terminal classifiers found no disposition
    | Foreign              // a collaborator failed, or answered what the node must refuse

  datatype Effect = Writes(state: State) | Raises(fault: Fault)

  predicate RoundsRemain(cfg: Config, s: State) {
    cfg.remediator && s.rounds.roundsUsed < cfg.remediationMax
  }

  /** The steps that publish a stalled head are wired to a forge and given a repository. */
  predicate Publishes(cfg: Config) {
    cfg.forge && cfg.refPublisher && cfg.repoUrl
  }

  function Need(condition: bool, at: Node, next: State): Effect {
    if condition then Writes(next) else Raises(Unmet(at))
  }

  /** The update a drafted remediation round writes, whichever route opened it. */
  function Draft(cfg: Config, s: State): State {
    var keeps := cfg.arm != Authored && s.plan.criteria;
    s.(rounds := Rounds(s.rounds.roundsUsed + 1, true),
       plan := s.plan.(criteria := keeps, sweepDemands := None, regenerations := 0),
       loop := s.loop.(cleared := false),
       merge := s.merge.(reviewPassed := false, merged := false, mergeError := false))
  }

  function Sweep(cfg: Config, s: State, demands: bool): State {
    var exhausted := demands && s.plan.regenerations >= cfg.regenerationMax;
    var rounds := if exhausted || !demands then s.plan.regenerations else s.plan.regenerations + 1;
    s.(plan := s.plan.(
      sweepDemands := Some(demands), criteria := true, regenerations := rounds, infeasible := exhausted))
  }

  /** Neither counter of the run moved. */
  predicate SameRound(s: State, next: State) {
    next.rounds.roundsUsed == s.rounds.roundsUsed && next.plan.regenerations == s.plan.regenerations
  }

  predicate Diverged(outcomes: seq<Consolidation>) {
    exists o <- outcomes :: o.status == Divergent
  }

  predicate Missing(outcomes: seq<Consolidation>) {
    exists o <- outcomes :: o.status == SourceMissing
  }

  /** The consolidation of an accepted loop branch. */
  function Merge(cfg: Config, s: State, outcomes: seq<Consolidation>, baseTip: Option<Sha>): (r: Effect)
    ensures r.Writes? ==> SameRound(s, r.state)
  {
    if |outcomes| == 0 || Missing(outcomes) then Raises(Foreign)
    else if Diverged(outcomes) then
      Writes(s.(merge := MergeFacts(Some(outcomes[0].tip), None, None, false, true, s.merge.reviewPassed),
                spent := s.spent.(tipRound := s.rounds.roundsUsed)))
    else if baseTip.None? then Raises(Foreign)
    else
      var tip := Some(outcomes[0].tip);
      Writes(s.(merge := MergeFacts(tip, baseTip, tip, true, false, s.merge.reviewPassed),
                spent := s.spent.(tipRound := s.rounds.roundsUsed)))
  }

  /** The exit of a loop the gate did not clear: the best commit is kept unless there is none. */
  function LoopExit(s: State): (r: State)
    ensures SameRound(s, r)
  {
    var landable := match s.loop.trajectory case None => None case Some(t) => t.landable;
    var best := if landable.Some? then landable else s.loop.best;
    s.(merge := MergeFacts(None, None, None, false, false, s.merge.reviewPassed), loop := s.loop.(best := best))
  }

  /** The tips of the repositories that did not diverge. */
  function Landed(outcomes: seq<Consolidation>): seq<Sha> {
    if |outcomes| == 0 then []
    else (if outcomes[0].status == Divergent then [] else [outcomes[0].tip]) + Landed(outcomes[1..])
  }

  function WithTip(s: State, tip: Sha): (r: State)
    ensures SameRound(s, r)
  {
    s.(merge := s.merge.(tip := Some(tip)), spent := s.spent.(tipRound := s.rounds.roundsUsed))
  }

  /** The commit that heads a stalled publication: the consolidated tip, or else the best commit. */
  function StalledHead(best: Sha, outcome: Consolidation): Sha {
    if outcome.status == FastForwarded || outcome.status == AlreadyIntegrated then outcome.tip else best
  }

  function Land(cfg: Config, s: State, outcomes: seq<Consolidation>): (r: Effect)
    ensures r.Writes? ==> SameRound(s, r.state)
  {
    if s.loop.trajectory.None? || s.loop.best.None? || !Publishes(cfg) then Writes(s)
    else if PerRepository(cfg) then
      if Missing(outcomes) then Raises(Foreign)
      else if |Landed(outcomes)| == 0 then Writes(s)
      else Writes(WithTip(s, Landed(outcomes)[0]))
    else if |outcomes| == 0 then Raises(Foreign)
    else Writes(WithTip(s, StalledHead(s.loop.best.value, outcomes[0])))
  }

  /** Whether the lane's delivery reads this fire as a stall to be published. */
  predicate ReadsAsStalled(s: State) {
    && !s.loop.cleared && !s.merge.merged && !s.merge.mergeError
    && s.loop.best.Some? && s.loop.trajectory.Some? && s.merge.tip.Some?
  }

  function WithLane(s: State, phase: LanePhase): (r: State)
    ensures SameRound(s, r)
  {
    s.(out := s.out.(lane := phase))
  }

  function Deliver(cfg: Config, s: State, red: Option<RedClass>): (r: Effect)
    ensures r.Writes? ==> SameRound(s, r.state)
    ensures r.Writes? && r.state.out.lane == CompletedLane(true) ==> RoundsRemain(cfg, r.state)
  {
    var outcome := Classify(s);
    var stalled := ReadsAsStalled(s);
    if outcome.None? then Raises(Unclassifiable)
    else if outcome.value != HandedOffForDelivery && !stalled then Writes(WithLane(s, SkippedLane))
    else if !cfg.forge then Writes(WithLane(s, SkippedLane))
    else if !cfg.repoUrl || s.merge.tip.None? || !s.plan.spec then Raises(Unmet(DeliverLane))
    else
      var pending := red == Some(WorkDefect) && RoundsRemain(cfg, s) && !stalled;
      Writes(WithLane(s, CompletedLane(pending)))
  }

  // One function a node: the update it writes, or why it raises.

  function BranchGenerated(s: State): State {
    s.(spent := s.spent.(branches := s.spent.branches + 1))
  }

  function TicketGenerated(s: State): State {
    s.(plan := s.plan.(spec := true), spent := s.spent.(tickets := s.spent.tickets + 1))
  }

  function CriteriaGenerated(s: State): State {
    s.(spent := s.spent.(generations := s.spent.generations + 1))
  }

  /** The board's criteria are read into the plan. */
  function CriteriaRead(s: State): State {
    s.(plan := s.plan.(spec := true, criteria := true))
  }

  function FoundInfeasible(s: State): State {
    s.(plan := s.plan.(infeasible := true))
  }

  function RulingMissed(s: State): State {
    s.(plan := s.plan.(rulingUnrecorded := true))
  }

  /** The quality loop's report; the tip of an earlier round is dropped. */
  function Implemented(s: State, iteration: nat, cleared: bool, trajectory: Trajectory): State {
    s.(loop := LoopFacts(cleared, s.loop.iterations + iteration, s.loop.best, Some(trajectory)),
       merge := s.merge.(tip := None),
       spent := s.spent.(loops := s.spent.loops + 1))
  }

  function Judged(s: State, passed: bool): State {
    s.(merge := s.merge.(reviewPassed := passed))
  }

  function WithPr(s: State): State {
    s.(out := s.out.(pr := true), spent := s.spent.(prs := s.spent.prs + 1))
  }

  function WithStalledPr(s: State): State {
    s.(out := s.out.(pr := true), spent := s.spent.(stalledPrs := s.spent.stalledPrs + 1))
  }

  function ChecksRead(s: State, status: CiStatus, red: Option<RedClass>, absent: bool): State {
    s.(out := s.out.(ciStatus := status, redClass := red, runAbsent := absent))
  }

  predicate CanImplement(s: State) {
    s.plan.spec && s.plan.criteria
  }

  predicate OnForge(cfg: Config) {
    cfg.forge && cfg.repoUrl
  }

  /** The nodes from a run's entry to its quality loop. */
  function ExecEntry(cfg: Config, n: Node, s: State, a: Answer): Effect {
    match n
    case GenerateBranch => Writes(BranchGenerated(s))
    case GenerateTicket => Writes(TicketGenerated(s))
    case PersistTicket => Need(cfg.persister && s.plan.spec, n, s)
    case GenerateCriteria => Need(s.plan.spec, n, CriteriaGenerated(s))
    case ValidateCriteria => Need(s.plan.spec, n, Sweep(cfg, s, a.Swept? && a.demands))
    case PersistArtifacts => Need(cfg.persister && CanImplement(s), n, s)
    case Prep => Writes(if a.Prepped? && a.found then CriteriaRead(s) else FoundInfeasible(s))
    case RevalidateCriteria => Writes(CriteriaRead(s))
    case RuleOpenQuestions =>
      Need(cfg.rulings && CanImplement(s), n, if a.Ruled? && a.recorded then s else RulingMissed(s))
    case RunRalphLoop =>
      if !a.Looped? then Raises(Foreign)
      else Need(CanImplement(s), n, Implemented(s, a.iteration, a.cleared, a.trajectory))
    case _ => Writes(s)
  }

  /** The nodes from the merge to the end of the fire. */
  function ExecFire(cfg: Config, n: Node, s: State, a: Answer): Effect {
    match n
    case MergeToFeature =>
      if !s.loop.cleared then Writes(LoopExit(s))
      else if !a.Consolidated? then Raises(Foreign)
      else Merge(cfg, s, a.outcomes, a.baseTip)
    case ScopeDone => Writes(Judged(s, a.Board? && a.allDone))
    case ReviewAgainstTicket =>
      var ready := s.merge.reviewBase.Some? && s.merge.reviewHead.Some? && CanImplement(s);
      Need(ready, n, Judged(s, a.Reviewed? && a.passed))
    case LandBestIteration => if !a.Consolidated? then Raises(Foreign) else Land(cfg, s, a.outcomes)
    case Remediate => Need(cfg.remediator && CanImplement(s), n, Draft(cfg, s))
    case FireComplete => if Classify(s).None? then Raises(Unclassifiable) else Writes(s)
    case _ => Writes(s)
  }

  /** The nodes of the two deliveries. */
  function ExecDelivery(cfg: Config, n: Node, s: State, a: Answer): Effect {
    match n
    case OpenPr => Need(OnForge(cfg) && CanImplement(s) && s.merge.tip.Some?, n, WithPr(s))
    case OpenStalledPr =>
      var stalled := s.loop.trajectory.Some? && s.loop.best.Some? && s.merge.tip.Some?;
      Need(Publishes(cfg) && CanImplement(s) && stalled, n, WithStalledPr(s))
    case MonitorCi =>
      if !a.Checked? then Raises(Foreign) else Need(OnForge(cfg), n, ChecksRead(s, a.status, a.red, a.absent))
    case CommentFailure => Need(OnForge(cfg) && s.out.pr, n, s)
    case DeliveryRemediation => Need(cfg.remediator && CanImplement(s), n, Draft(cfg, s))
    case DeliveryComplete => if ClassifyAuthored(s).None? then Raises(Unclassifiable) else Writes(s)
    case DeliverLane => if !a.Checked? then Raises(Foreign) else Deliver(cfg, s, a.red)
    case RemediateLane =>
      Need(s.out.lane == CompletedLane(true) && RoundsRemain(cfg, s) && CanImplement(s), n, Draft(cfg, s))
    case LaneComplete =>
      if s.out.lane == PendingLane || (s.out.lane.CompletedLane? && !cfg.forge) then Raises(Unmet(n))
      else if Classify(s).None? then Raises(Unclassifiable)
      else Writes(s)
    case _ => Writes(s)
  }

  predicate InFire(n: Node) {
    || n == MergeToFeature || n == ScopeDone || n == ReviewAgainstTicket || n == LandBestIteration
    || n == Remediate || n == FireComplete
  }

  predicate InDelivery(n: Node) {
    || n == OpenPr || n == OpenStalledPr || n == MonitorCi || n == CommentFailure || n == DeliveryRemediation
    || n == DeliveryComplete || n == DeliverLane || n == RemediateLane || n == LaneComplete || n == End
  }

  function Exec(cfg: Config, n: Node, s: State, a: Answer): Effect {
    if a == Refused then Raises(Foreign)
    else if InFire(n) then ExecFire(cfg, n, s, a)
    else if InDelivery(n) then ExecDelivery(cfg, n, s, a)
    else ExecEntry(cfg, n, s, a)
  }

  // ------------------------------------------------------------------- routers

  /** The node the entry router and a remediation round both name. */
  function CriteriaGate(cfg: Config): Node {
    match cfg.arm
    case Authored => GenerateCriteria
    case Native => RevalidateCriteria
    case ScopeRun => RunRalphLoop
  }

  function RouteEntry(cfg: Config, s: State): Node {
    if s.rounds.remediationTicket then CriteriaGate(cfg) else ResolveVisibility
  }

  function RouteAfterMerge(cfg: Config, s: State): Node {
    if s.merge.merged then (if cfg.arm == ScopeRun then ScopeDone else ReviewAgainstTicket)
    else if s.merge.mergeError then FireComplete
    else if RoundsRemain(cfg, s) then Remediate
    else LandBestIteration
  }

  function RouteAfterReview(cfg: Config, s: State): Node {
    if s.merge.reviewPassed then FireComplete
    else if RoundsRemain(cfg, s) then Remediate
    else FireComplete
  }

  function RouteAfterFire(cfg: Config, s: State): Node {
    var canPr := cfg.forge && cfg.repoUrl;
    if s.plan.infeasible || s.merge.mergeError then DeliveryComplete
    else if !s.loop.cleared then
      if canPr && s.loop.best.Some? && s.loop.trajectory.Some? then OpenStalledPr else DeliveryComplete
    else if !s.merge.reviewPassed then
      if canPr && s.out.pr then CommentFailure else DeliveryComplete
    else if s.out.pr then
      if cfg.forge && cfg.repoUrl then MonitorCi else DeliveryComplete
    else if canPr then OpenPr
    else DeliveryComplete
  }

  function RouteAfterCi(cfg: Config, s: State): Node {
    if s.out.ciStatus != Failed then DeliveryComplete
    else if s.out.redClass != Some(WorkDefect) then DeliveryComplete
    else if RoundsRemain(cfg, s) then DeliveryRemediation
    else if s.out.pr && cfg.forge && cfg.repoUrl then CommentFailure
    else DeliveryComplete
  }

  function RouteAfterPr(cfg: Config): Node {
    if cfg.forge && cfg.repoUrl then MonitorCi else DeliveryComplete
  }

  function Route(cfg: Config, n: Node, s: State): Node {
    match n
    case ResolveVisibility =>
      (match cfg.arm
       case Authored => GenerateBranch
       case ScopeRun => Groom
       case Native => RevalidateCriteria)
    case GenerateBranch => GenerateTicket
    case GenerateTicket => if cfg.persister then PersistTicket else GenerateCriteria
    case PersistTicket => GenerateCriteria
    case GenerateCriteria => ValidateCriteria
    case ValidateCriteria =>
      if s.plan.infeasible then FireComplete
      else if s.plan.sweepDemands == Some(true) then GenerateCriteria
      else if cfg.persister then PersistArtifacts
      else RunRalphLoop
    case PersistArtifacts => RunRalphLoop
    case Groom => Prep
    case Prep => if s.plan.infeasible then FireComplete else RunRalphLoop
    case RevalidateCriteria =>
      if cfg.deliverOnly && !s.rounds.remediationTicket then MergeToFeature else RuleOpenQuestions
    case RuleOpenQuestions => if s.plan.rulingUnrecorded then FireComplete else RunRalphLoop
    case RunRalphLoop => MergeToFeature
    case MergeToFeature => RouteAfterMerge(cfg, s)
    case ScopeDone => if s.merge.reviewPassed then ReviewAgainstTicket else RouteAfterReview(cfg, s)
    case ReviewAgainstTicket => RouteAfterReview(cfg, s)
    case LandBestIteration => FireComplete
    case Remediate => CriteriaGate(cfg)
    case FireComplete => if cfg.arm == Native then DeliverLane else RouteAfterFire(cfg, s)
    case OpenPr => RouteAfterPr(cfg)
    case OpenStalledPr => RouteAfterPr(cfg)
    case MonitorCi => RouteAfterCi(cfg, s)
    case CommentFailure => DeliveryComplete
    case DeliveryRemediation => RouteEntry(cfg, s)
    case DeliveryComplete => End
    case DeliverLane => if s.out.lane == CompletedLane(true) then RemediateLane else LaneComplete
    case RemediateLane => RouteEntry(cfg, s)
    case LaneComplete => End
    case End => End
  }

  // --------------------------------------------------------------- classifiers

  datatype Outcome =
    | RulingUnrecorded | CriteriaInfeasible | MergeDivergent | FixConsolidationFailed
    | ZeroCommitNoPr | RemediationBudgetExhausted | LoopPlateaued | LoopNotAccepted
    | HandedOffForDelivery | ReviewFailedFixBudgetExhausted
    | ReviewPassedNoPrAdapter | StalledPrOpened
    | CiNoRunAtRef | CiFailedEnvironmentPrerequisite | CiFailedUnclassified
    | PrOpened | CiPassed | CiNotConfigured | CiFailedFixBudgetExhausted

  /** The fire's terminal disposition; none is the classifier's own error. */
  function Classify(s: State): Option<Outcome> {
    var mergeFailed := !s.merge.merged && s.merge.mergeError;
    var loopExit := !s.loop.cleared && !s.merge.merged && !s.merge.mergeError;
    if s.plan.rulingUnrecorded then Some(RulingUnrecorded)
    else if s.plan.infeasible then Some(CriteriaInfeasible)
    else if mergeFailed && s.rounds.roundsUsed == 0 then Some(MergeDivergent)
    else if mergeFailed && s.rounds.roundsUsed > 0 then Some(FixConsolidationFailed)
    else if loopExit && s.loop.best.None? && s.loop.trajectory.Some? then Some(ZeroCommitNoPr)
    else if s.rounds.roundsUsed > 0 && !s.loop.cleared then Some(RemediationBudgetExhausted)
    else if loopExit && s.loop.trajectory.Some? && s.loop.trajectory.value.plateaued then Some(LoopPlateaued)
    else if loopExit && (s.loop.trajectory.None? || !s.loop.trajectory.value.plateaued) then Some(LoopNotAccepted)
    else if s.merge.merged && s.merge.reviewPassed then Some(HandedOffForDelivery)
    else if s.merge.merged && !s.merge.reviewPassed then Some(ReviewFailedFixBudgetExhausted)
    else None
  }

  function ClassifyAuthored(s: State): Option<Outcome> {
    var fire := Classify(s);
    if fire.None? then None
    else if !s.out.pr then Some(if fire.value == HandedOffForDelivery then ReviewPassedNoPrAdapter else fire.value)
    else if s.plan.infeasible || s.merge.mergeError then fire
    else if !s.loop.cleared then Some(if !s.merge.merged then StalledPrOpened else fire.value)
    else if fire.value != HandedOffForDelivery && fire.value != ReviewFailedFixBudgetExhausted then None
    else if s.out.runAbsent then Some(CiNoRunAtRef)
    else if s.out.redClass == Some(EnvironmentUnmet) then Some(CiFailedEnvironmentPrerequisite)
    else if s.out.redClass == Some(Unclassified) then Some(CiFailedUnclassified)
    else
      match s.out.ciStatus
      case NotMonitored => Some(PrOpened)
      case Passed => Some(CiPassed)
      case NotConfigured => Some(CiNotConfigured)
      case Failed => Some(CiFailedFixBudgetExhausted)
  }

  // ---------------------------------------------------------------------- runs

  datatype Progress = On(node: Node, state: State) | Stopped(fault: Fault)

  function Step(cfg: Config, n: Node, s: State, a: Answer): Progress {
    match Exec(cfg, n, s, a)
    case Raises(fault) => Stopped(fault)
    case Writes(next) => On(Route(cfg, n, next), next)
  }
}
