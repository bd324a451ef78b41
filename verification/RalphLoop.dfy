/**
 The inner loop: each round executes and, unless an amendment was upheld against it, grades.
 What the loop holds at a barrier is its entry roster and what it last graded.
 */
module RalphLoop {
  import opened Bounds
  import opened Criteria
  import F = FireGraph

  /** The loop's receipt: nothing yet, a grading of a roster, or a refused round after one. */
  datatype Receipt = Pending | Graded(criteria: seq<Criterion>) | Refused(lastGraded: seq<Criterion>)

  /** A round's answers: an upheld amendment blocks it; otherwise a roster is graded, cleared or not. */
  datatype Round = Round(upheld: bool, graded: seq<Criterion>, cleared: bool, plateaued: bool)

  datatype State = State(iteration: nat, cleared: bool, blocked: bool, receipt: Receipt)

  const START := State(0, false, false, Pending)

  function GradedBy(r: Receipt): seq<Criterion> {
    match r
    case Pending => []
    case Graded(criteria) => criteria
    case Refused(lastGraded) => lastGraded
  }

  /** What a barrier of this loop holds. */
  function Held(entry: seq<Criterion>, r: Receipt): set<Key> {
    Keys(entry + GradedBy(r))
  }

  /** A round that ended in an upheld amendment graded nothing and carries the last grading forward. */
  function Execute(s: State, upheld: bool): State {
    State(s.iteration + 1, s.cleared, upheld, if upheld then Refused(GradedBy(s.receipt)) else s.receipt)
  }

  function Evaluate(s: State, round: Round): State {
    s.(cleared := round.cleared, receipt := Graded(round.graded))
  }

  datatype Next = ToExecute | ToEvaluate | Ends

  function ShouldContinue(s: State, maxIterations: nat, plateaued: bool): Next {
    if s.cleared && !s.blocked then Ends
    else if s.iteration >= maxIterations then Ends
    else if plateaued then Ends
    else ToExecute
  }

  function RouteAfterExecute(s: State, maxIterations: nat, plateaued: bool): Next {
    if s.blocked then ShouldContinue(s, maxIterations, plateaued) else ToEvaluate
  }

  /** One round: executed, then graded unless it was blocked. */
  function After(s: State, maxIterations: nat, round: Round): State {
    var executed := Execute(s, round.upheld);
    if RouteAfterExecute(executed, maxIterations, round.plateaued) == ToEvaluate then Evaluate(executed, round)
    else executed
  }

  /** The whole loop on a stream of rounds; that it is a total function is its termination. */
  function Loop(s: State, maxIterations: nat, rounds: nat -> Round): (end: State)
    decreases if s.iteration < maxIterations then maxIterations - s.iteration else 0, 1
  {
    var next := After(s, maxIterations, rounds(s.iteration));
    if ShouldContinue(next, maxIterations, rounds(s.iteration).plateaued) == Ends then next
    else Loop(next, maxIterations, rounds)
  }

  /** The last roster a genuine grading graded within the first *n* rounds. */
  function LastGraded(rounds: nat -> Round, n: nat): seq<Criterion> {
    if n == 0 then [] else if rounds(n - 1).upheld then LastGraded(rounds, n - 1) else rounds(n - 1).graded
  }

  /** What holds before each round. */
  ghost predicate LoopOk(s: State, maxIterations: nat, rounds: nat -> Round) {
    && !s.cleared && (s.iteration == 0 || s.iteration < maxIterations)
    && GradedBy(s.receipt) == LastGraded(rounds, s.iteration)
    && (s.receipt == Pending <==> s.iteration == 0)
    && (s.iteration > 0 ==> (s.receipt.Refused? <==> rounds(s.iteration - 1).upheld))
  }

  /** Where the loop stops: within its bound, holding the last genuine grading. */
  ghost predicate EndOk(end: State, maxIterations: nat, rounds: nat -> Round) {
    && 0 < end.iteration <= AtLeastOne(maxIterations)
    && GradedBy(end.receipt) == LastGraded(rounds, end.iteration)
    && end.receipt != Pending
    && (end.receipt.Refused? <==> rounds(end.iteration - 1).upheld)
    && (end.cleared <==> !rounds(end.iteration - 1).upheld && rounds(end.iteration - 1).cleared)
    && (end.iteration < maxIterations ==> end.cleared || rounds(end.iteration - 1).plateaued)
  }

  lemma {:induction false} LoopGoesOn(s: State, maxIterations: nat, rounds: nat -> Round)
    requires LoopOk(s, maxIterations, rounds)
    ensures EndOk(Loop(s, maxIterations, rounds), maxIterations, rounds)
    ensures s.iteration < Loop(s, maxIterations, rounds).iteration
    decreases if s.iteration < maxIterations then maxIterations - s.iteration else 0
  {
    var round := rounds(s.iteration);
    var next := After(s, maxIterations, round);
    assert GradedBy(next.receipt) == LastGraded(rounds, s.iteration + 1);
    if ShouldContinue(next, maxIterations, round.plateaued) != Ends {
      LoopGoesOn(next, maxIterations, rounds);
    }
  }

  lemma StartIsOk(maxIterations: nat, rounds: nat -> Round)
    ensures LoopOk(START, maxIterations, rounds)
  {
  }

  /** A round neither cleared by its grading nor stopped for its plateau. */
  predicate GoesOn(round: Round) {
    (round.upheld || !round.cleared) && !round.plateaued
  }

  /** The loop has run at least this far: every earlier round went on. */
  lemma {:induction false} EarlierRoundsWentOn(s: State, maxIterations: nat, rounds: nat -> Round, k: nat)
    requires LoopOk(s, maxIterations, rounds) && s.iteration <= k < Loop(s, maxIterations, rounds).iteration - 1
    ensures GoesOn(rounds(k))
    decreases if s.iteration < maxIterations then maxIterations - s.iteration else 0
  {
    var round := rounds(s.iteration);
    var next := After(s, maxIterations, round);
    if ShouldContinue(next, maxIterations, round.plateaued) != Ends {
      if k > s.iteration {
        EarlierRoundsWentOn(next, maxIterations, rounds, k);
      }
    }
  }

  /**
   The loop, from its start, ends within its bound, in the first round that is cleared or
   plateaued if there is one. What it holds is what the last genuine grading graded, however
   many refused rounds came after it; it is cleared only by a round that graded.
   */
  lemma LoopEndsWithinItsBound(maxIterations: nat, rounds: nat -> Round)
    ensures var end := Loop(START, maxIterations, rounds);
      && EndOk(end, maxIterations, rounds)
      && forall k: nat :: k < end.iteration - 1 ==> GoesOn(rounds(k))
  {
    StartIsOk(maxIterations, rounds);
    LoopGoesOn(START, maxIterations, rounds);
    forall k: nat | k < Loop(START, maxIterations, rounds).iteration - 1 ensures GoesOn(rounds(k)) {
      EarlierRoundsWentOn(START, maxIterations, rounds, k);
    }
  }

  /** What the loop reports is an answer its node in the fire graph can get. */
  lemma LoopReportIsPossible(cfg: F.Config, rounds: nat -> Round, trajectory: F.Trajectory)
    ensures var end := Loop(START, cfg.maxIterations, rounds);
      F.Possible(cfg, F.RunRalphLoop, F.Looped(end.iteration, end.cleared, trajectory))
  {
    LoopEndsWithinItsBound(cfg.maxIterations, rounds);
  }

  // ------------------------------------------------------------------ the barriers

  lemma HeldIsEntryAndGraded(entry: seq<Criterion>, r: Receipt)
    ensures Held(entry, r) == Keys(entry) + Keys(GradedBy(r))
  {
  }

  /** The check after the loop: a finished grading takes effect only on the roster it graded. */
  datatype Check = Permitted | Stopped(reason: Reason) | NotComplete

  function PostLoop(named: seq<Key>, board: seq<Issue>, entry: seq<Criterion>, r: Receipt): Check {
    match ReadCurrent(named, board, Held(entry, r))
    case Refusal(reason) => Stopped(reason)
    case Roster(current) =>
      match r
      case Pending => NotComplete
      case Graded(criteria) => if current == criteria then Permitted else Stopped(Differs)
      case Refused(_) => Permitted
  }

  /**
   Refused rounds after a grading change nothing a barrier reads: whatever number of them
   follow, if only graded criteria moved since, and only between unstarted and finished, the
   reading at any later barrier is the graded roster again, and the check after the loop
   permits its effect.
   */
  lemma OwnWorkSurvivesRefusedRounds(
      named: seq<Key>, before: seq<Issue>, after: seq<Issue>, entry: seq<Criterion>,
      previous: Receipt, later: Receipt, graded: seq<Criterion>)
    requires InKeyOrder(before) && ReadCurrent(named, before, Held(entry, previous)) == Roster(graded)
    requires later == Graded(graded) || later == Refused(graded)
    requires OnlyGradedMoved(before, after, graded)
    ensures ReadCurrent(named, after, Held(entry, later)) == Roster(graded)
    ensures PostLoop(named, after, entry, later) == Permitted
  {
    HeldIsEntryAndGraded(entry, previous);
    HeldIsEntryAndGraded(entry, later);
    OwnWorkNeverRefuses(named, before, after, Keys(entry), Held(entry, previous), graded);
  }

  /** A graded loop's effect is permitted exactly when the reading describes the roster it graded. */
  lemma GradedEffectIsExact(named: seq<Key>, board: seq<Issue>, entry: seq<Criterion>, graded: seq<Criterion>)
    requires InKeyOrder(board) && RosterInOrder(graded) && graded != []
    ensures PostLoop(named, board, entry, Graded(graded)) == Permitted <==>
      (forall k :: k in named ==> HasKey(board, k)) && Describes(graded, board, Held(entry, Graded(graded)))
  {
    BarrierPassesExactlyWhen(named, board, Held(entry, Graded(graded)), graded);
  }
}
