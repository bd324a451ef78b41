/** Every run of the composed graphs ends, from every state and whatever is answered. */
module FireTermination {
  import opened FireGraph

  predicate OpensRound(n: Node) {
    n == Remediate || n == DeliveryRemediation || n == RemediateLane
  }

  /** Remediation rounds a run can still open, counting the one it is opening. */
  function RoundsLeft(cfg: Config, n: Node, s: State): nat {
    var used := if OpensRound(n) then s.rounds.roundsUsed + 1 else s.rounds.roundsUsed;
    (if used < cfg.remediationMax then cfg.remediationMax - used else 0) + (if OpensRound(n) then 1 else 0)
  }

  function RegenerationsLeft(cfg: Config, s: State): nat {
    if s.plan.regenerations < cfg.regenerationMax then cfg.regenerationMax - s.plan.regenerations else 0
  }

  /** How far a node is from the end when no back edge is taken. */
  function Rank(n: Node): nat {
    match n
    case ResolveVisibility => 26
    case GenerateBranch => 25
    case GenerateTicket => 24
    case PersistTicket => 23
    case GenerateCriteria => 22
    case ValidateCriteria => 21
    case PersistArtifacts => 20
    case Groom => 19
    case Prep => 18
    case RevalidateCriteria => 17
    case RuleOpenQuestions => 16
    case RunRalphLoop => 15
    case MergeToFeature => 14
    case ScopeDone => 13
    case ReviewAgainstTicket => 12
    case LandBestIteration => 11
    case Remediate => 10
    case FireComplete => 9
    case OpenPr => 8
    case OpenStalledPr => 7
    case MonitorCi => 6
    case DeliverLane => 5
    case CommentFailure => 4
    case DeliveryRemediation => 3
    case RemediateLane => 2
    case DeliveryComplete => 1
    case LaneComplete => 1
    case End => 0
  }

  /**
   The measure drops on every step from every state, reachable or not: a remediation round
   is spent although it resets the regeneration counter and re-enters at the criteria gate,
   a regeneration is spent although it re-enters a node of higher rank, and every other
   edge leads to a node of lower rank.
   */
  lemma MeasureDrops(cfg: Config, n: Node, s: State, a: Answer)
    requires n != End && Step(cfg, n, s, a).On?
    ensures var p := Step(cfg, n, s, a);
      var r, r' := RoundsLeft(cfg, n, s), RoundsLeft(cfg, p.node, p.state);
      var g, g' := RegenerationsLeft(cfg, s), RegenerationsLeft(cfg, p.state);
      r' < r || (r' == r && (g' < g || (g' == g && Rank(p.node) < Rank(n))))
  {
    if OpensRound(n) {
      DraftDrops(cfg, n, s, a);
    } else if n == ValidateCriteria {
      SweepDrops(cfg, s, a);
    } else {
      CountersStand(cfg, n, s, a);
      RankDrops(cfg, n, s, a);
    }
  }

  lemma DraftDrops(cfg: Config, n: Node, s: State, a: Answer)
    requires OpensRound(n) && Step(cfg, n, s, a).On?
    ensures var p := Step(cfg, n, s, a); RoundsLeft(cfg, p.node, p.state) < RoundsLeft(cfg, n, s)
  {
  }

  lemma SweepDrops(cfg: Config, s: State, a: Answer)
    requires Step(cfg, ValidateCriteria, s, a).On?
    ensures var p := Step(cfg, ValidateCriteria, s, a);
      && RoundsLeft(cfg, p.node, p.state) == RoundsLeft(cfg, ValidateCriteria, s)
      && (RegenerationsLeft(cfg, p.state) < RegenerationsLeft(cfg, s)
          || (RegenerationsLeft(cfg, p.state) == RegenerationsLeft(cfg, s) && Rank(p.node) < Rank(ValidateCriteria)))
  {
  }

  /** Only a draft and a sweep move the two counters. */
  lemma CountersStand(cfg: Config, n: Node, s: State, a: Answer)
    requires !OpensRound(n) && n != ValidateCriteria && Exec(cfg, n, s, a).Writes?
    ensures SameRound(s, Exec(cfg, n, s, a).state)
  {
    if InFire(n) {
      FireCountersStand(cfg, n, s, a);
    } else if InDelivery(n) {
      DeliveryCountersStand(cfg, n, s, a);
    } else {
      assert Exec(cfg, n, s, a) == ExecEntry(cfg, n, s, a);
    }
  }

  lemma FireCountersStand(cfg: Config, n: Node, s: State, a: Answer)
    requires InFire(n) && n != Remediate && Exec(cfg, n, s, a).Writes?
    ensures SameRound(s, Exec(cfg, n, s, a).state)
  {
    assert Exec(cfg, n, s, a) == ExecFire(cfg, n, s, a);
  }

  lemma DeliveryCountersStand(cfg: Config, n: Node, s: State, a: Answer)
    requires InDelivery(n) && !OpensRound(n) && Exec(cfg, n, s, a).Writes?
    ensures SameRound(s, Exec(cfg, n, s, a).state)
  {
    assert Exec(cfg, n, s, a) == ExecDelivery(cfg, n, s, a);
  }

  lemma RankDrops(cfg: Config, n: Node, s: State, a: Answer)
    requires n != End && !OpensRound(n) && n != ValidateCriteria && Exec(cfg, n, s, a).Writes?
    ensures var next := Exec(cfg, n, s, a).state;
      && Rank(Route(cfg, n, next)) < Rank(n)
      && (OpensRound(Route(cfg, n, next)) ==> RoundsRemain(cfg, next))
  {
    if n == DeliverLane {
    } else {
      RouteDrops(cfg, n, Exec(cfg, n, s, a).state);
    }
  }

  lemma RouteDrops(cfg: Config, n: Node, s: State)
    requires n != End && !OpensRound(n) && n != ValidateCriteria && n != DeliverLane
    ensures Rank(Route(cfg, n, s)) < Rank(n)
    ensures OpensRound(Route(cfg, n, s)) ==> RoundsRemain(cfg, s)
  {
  }

  datatype Ending = Ended(state: State) | Raised(fault: Fault)

  /** The whole run on a stream of answers; that it is a total function is its termination. */
  function Drive(cfg: Config, n: Node, s: State, answers: nat -> Answer, k: nat): Ending
    decreases RoundsLeft(cfg, n, s), RegenerationsLeft(cfg, s), Rank(n)
  {
    if n == End then Ended(s)
    else
      match Step(cfg, n, s, answers(k))
      case Stopped(fault) => Raised(fault)
      case On(next, state) =>
        MeasureDrops(cfg, n, s, answers(k));
        Drive(cfg, next, state, answers, k + 1)
  }

  function Run(cfg: Config, answers: nat -> Answer): Ending {
    Drive(cfg, RouteEntry(cfg, Initial(cfg)), Initial(cfg), answers, 0)
  }

  /** One more step: a run stays where it ended or raised. */
  function Onward(cfg: Config, p: Progress, a: Answer): Progress {
    if p.Stopped? || p.node == End then p else Step(cfg, p.node, p.state, a)
  }

  /** Where the run stands after *k* steps. */
  function After(cfg: Config, answers: nat -> Answer, k: nat): Progress {
    if k == 0 then On(RouteEntry(cfg, Initial(cfg)), Initial(cfg))
    else Onward(cfg, After(cfg, answers, k - 1), answers(k - 1))
  }
}
