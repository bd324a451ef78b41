/** Bounded re-dispatch: ask again, telling what was refused, until an answer conforms or the bound is spent. */
module Redispatch {
  import opened Bounds
  import opened Options

  datatype Error = FanIn(text: string) | Contract(text: string) | Other(text: string)

  datatype Dispatched<T> = Output(output: T) | Raised(error: Error)

  /**
   The sessions and the guard of one re-dispatch. What attempt *k* (from zero) comes to may
   depend on the attempt and on the breach it was handed.
   */
  datatype Channel<!T> = Channel(
    dispatch: (nat, Option<Error>) -> Dispatched<T>,
    check: (nat, T) -> Option<Error>,
    correctable: Error -> bool)

  /** What one attempt came to: a conforming output, an unfit one, no output at all, or another error. */
  datatype Attempt<T> =
    | Conforms(output: T)
    | Unfit(output: T, breach: Error)
    | NoOutput(breach: Error)
    | Escapes(error: Error)

  datatype Ending<T> =
    | Redispatched(output: T, unresolved: Option<Error>, breaches: seq<Error>, attempts: nat)
    | Propagates(breach: Error)    // the spent attempt produced nothing to hand back
    | Escaped(error: Error)        // an error the guard does not correct

  function Try<T>(c: Channel<T>, k: nat, handed: Option<Error>): Attempt<T> {
    match c.dispatch(k, handed)
    case Raised(e) => if c.correctable(e) then NoOutput(e) else Escapes(e)
    case Output(o) =>
      match c.check(k, o)
      case None => Conforms(o)
      case Some(e) => if c.correctable(e) then Unfit(o, e) else Escapes(e)
  }

  predicate Refused<T>(a: Attempt<T>) {
    a.Unfit? || a.NoOutput?
  }

  /** The breach attempt *k* is handed: none at first, then the one the attempt before it came to. */
  function Handed<T>(c: Channel<T>, k: nat): Option<Error> {
    if k == 0 then None
    else
      var before := Try(c, k - 1, Handed(c, k - 1));
      if Refused(before) then Some(before.breach) else None
  }

  function At<T>(c: Channel<T>, k: nat): Attempt<T> {
    Try(c, k, Handed(c, k))
  }

  predicate AllRefused<T>(c: Channel<T>, n: nat) {
    forall k: nat :: k < n ==> Refused(At(c, k))
  }

  /** The breaches of the first *n* attempts, in order. */
  function Breaches<T>(c: Channel<T>, n: nat): (r: seq<Error>)
    requires AllRefused(c, n)
    ensures |r| == n
  {
    if n == 0 then []
    else
      var last := At(c, n - 1);
      Breaches(c, n - 1) + [last.breach]
  }

  lemma {:induction false} BreachesAreEach<T>(c: Channel<T>, n: nat)
    requires AllRefused(c, n)
    ensures forall k: nat :: k < n ==> Refused(At(c, k)) && Breaches(c, n)[k] == At(c, k).breach
  {
    if n > 0 {
      BreachesAreEach(c, n - 1);
    }
  }

  /**
   The accounting of a re-dispatch, whatever its sessions and its guard do. It makes at most
   the bound's attempts, each handed the breach of the one before; a conforming return has one
   attempt more than it has breaches; an exhausted one has as many of each as the bound, the
   last breach still standing; it propagates a breach only when the last attempt the bound
   allows produced no output; and any other error escapes at once.
   */
  ghost predicate Accounted<T>(c: Channel<T>, maxAttempts: nat, end: Ending<T>, attempts: nat) {
    && 1 <= attempts <= AtLeastOne(maxAttempts) && AllRefused(c, attempts - 1)
    && match end
       case Redispatched(output, None, breaches, spent) =>
         && spent == attempts == |breaches| + 1
         && At(c, attempts - 1) == Conforms(output) && breaches == Breaches(c, attempts - 1)
       case Redispatched(output, Some(breach), breaches, spent) =>
         && spent == attempts == |breaches| == AtLeastOne(maxAttempts) && AllRefused(c, attempts)
         && At(c, attempts - 1) == Unfit(output, breach)
         && breaches == Breaches(c, attempts) && breaches[attempts - 1] == breach
       case Propagates(breach) => attempts == AtLeastOne(maxAttempts) && At(c, attempts - 1) == NoOutput(breach)
       case Escaped(error) => At(c, attempts - 1) == Escapes(error)
  }

  method UntilConforming<T(==)>(c: Channel<T>, maxAttempts: nat) returns (end: Ending<T>)
    ensures exists attempts: nat :: Accounted(c, maxAttempts, end, attempts)
  {
    var breaches: seq<Error> := [];
    var attempt := 0;
    while true
      invariant attempt < AtLeastOne(maxAttempts) && AllRefused(c, attempt) && breaches == Breaches(c, attempt)
      decreases AtLeastOne(maxAttempts) - attempt
    {
      var previous := if breaches == [] then None else Some(breaches[|breaches| - 1]);
      assert previous == Handed(c, attempt);
      var dispatched := c.dispatch(attempt, previous);
      attempt := attempt + 1;
      match dispatched
      case Raised(caught) =>
        if !c.correctable(caught) {
          end := Escaped(caught);
          assert Accounted(c, maxAttempts, end, attempt);
          return;
        }
        breaches := breaches + [caught];
        if attempt >= maxAttempts {
          end := Propagates(caught);
          assert Accounted(c, maxAttempts, end, attempt);
          return;
        }
      case Output(output) =>
        var checked := c.check(attempt - 1, output);
        if checked.None? {
          end := Redispatched(output, None, breaches, attempt);
          assert Accounted(c, maxAttempts, end, attempt);
          return;
        }
        if !c.correctable(checked.value) {
          end := Escaped(checked.value);
          assert Accounted(c, maxAttempts, end, attempt);
          return;
        }
        breaches := breaches + [checked.value];
        if attempt >= maxAttempts {
          end := Redispatched(output, Some(checked.value), breaches, attempt);
          assert Accounted(c, maxAttempts, end, attempt);
          return;
        }
    }
  }

  /** How a re-dispatch ends is settled by its first attempt that is not refused, if the bound reaches one. */
  lemma EndingIsSettled<T>(c: Channel<T>, maxAttempts: nat, end: Ending<T>, attempts: nat)
    requires Accounted(c, maxAttempts, end, attempts)
    ensures end.Propagates? <==> AllRefused(c, AtLeastOne(maxAttempts)) && At(c, AtLeastOne(maxAttempts) - 1).NoOutput?
    ensures end.Redispatched? && end.unresolved.Some? <==>
      AllRefused(c, AtLeastOne(maxAttempts)) && At(c, AtLeastOne(maxAttempts) - 1).Unfit?
    ensures end.Redispatched? && end.unresolved.None? <==>
      exists k: nat :: k < AtLeastOne(maxAttempts) && AllRefused(c, k) && At(c, k).Conforms?
    ensures end.Escaped? <==> exists k: nat :: k < AtLeastOne(maxAttempts) && AllRefused(c, k) && At(c, k).Escapes?
  {
    var last := attempts - 1;
    assert last < AtLeastOne(maxAttempts) && AllRefused(c, last);
    if Refused(At(c, last)) {
      assert AllRefused(c, AtLeastOne(maxAttempts));
    } else {
      forall k: nat | AllRefused(c, k) && !Refused(At(c, k)) ensures k == last {
        assert !(k < last) && !(last < k);
      }
      assert !AllRefused(c, AtLeastOne(maxAttempts));
    }
  }

  /** Two endings accounted for the same channel and bound are the same ending. */
  lemma EndingIsUnique<T>(c: Channel<T>, maxAttempts: nat, a: Ending<T>, m: nat, b: Ending<T>, n: nat)
    requires Accounted(c, maxAttempts, a, m) && Accounted(c, maxAttempts, b, n)
    ensures a == b && m == n
  {
    assert m < n ==> Refused(At(c, m - 1));
    assert n < m ==> Refused(At(c, n - 1));
  }

  // -------------------------------------------------------------------- reports

  datatype Correction = Correction(breaches: seq<Error>, attempts: nat)

  /** What the wire records of a re-dispatch: nothing when the first answer conformed. */
  function CorrectionReport<T>(r: Ending<T>): Option<Correction>
    requires r.Redispatched?
  {
    if r.breaches == [] then None else Some(Correction(r.breaches, r.attempts))
  }

  /** No report means the first answer conformed; a report names every refusal, in order. */
  lemma ReportIsExact<T>(c: Channel<T>, maxAttempts: nat, end: Ending<T>, attempts: nat)
    requires Accounted(c, maxAttempts, end, attempts) && end.Redispatched?
    ensures CorrectionReport(end).None? <==> At(c, 0).Conforms?
    ensures CorrectionReport(end).Some? ==>
      var report := CorrectionReport(end).value;
      && report.attempts == attempts && 1 <= |report.breaches| <= attempts
      && forall k: nat :: k < |report.breaches| ==> Refused(At(c, k)) && report.breaches[k] == At(c, k).breach
  {
    if At(c, 0).Conforms? {
      assert attempts == 1;
    }
    BreachesAreEach(c, |end.breaches|);
  }

  /** The fan-in channel: it is told nothing of a breach, and only a non-permutation is corrected. */
  function FanInChannel<T>(dispatch: nat -> Dispatched<T>, check: (nat, T) -> Option<Error>): Channel<T> {
    Channel((k: nat, _: Option<Error>) => dispatch(k), check, (e: Error) => e.FanIn?)
  }

  method UntilPermutation<T(==)>(dispatch: nat -> Dispatched<T>, check: (nat, T) -> Option<Error>, maxAttempts: nat)
      returns (end: Ending<T>)
    ensures exists attempts: nat :: Accounted(FanInChannel(dispatch, check), maxAttempts, end, attempts)
    ensures end.Redispatched? && end.unresolved.Some? ==> end.unresolved.value.FanIn?
    ensures end.Propagates? ==> end.breach.FanIn?
  {
    end := UntilConforming(FanInChannel(dispatch, check), maxAttempts);
  }
}
