/** What a job's readers are handed, however the steps of the whole queue interleave. */
module JobQueueReaders {
  import S = JobStreams
  import opened JobRegistry
  import opened JobQueue
  import opened JobQueueInvariant
  import opened JobQueueRuns

  /** What a step does to one job's stream. */
  ghost function Reaching(q: Queue, s: Step, id: JobId): seq<S.Action>
    requires Linked(q) && Enabled(q, s) && id in q.streams
  {
    match s
    case Publishes(name, w, e) => if JobAt(q, name, w) == id then [S.Publish(e)] else []
    case PublishesError(name, w, e) => if JobAt(q, name, w) == id then [S.Publish(e)] else []
    case Finishes(name, w) => if JobAt(q, name, w) == id then [S.Close] else []
    case BufferExpires(j) => if j == id && id in q.live then [S.Discard] else []
    case Reads(j, a) => if j == id then [a] else []
    case SweepsUp =>
      if id in q.live && id in q.registry.records && q.registry.records[id].state != Terminal then [S.Close] else []
    case _ => []
  }

  /** The steps of a run a job's stream sees. */
  ghost function Projected(q: Queue, steps: seq<Step>, id: JobId): seq<S.Action>
    requires Sound(q) && Playable(q, steps) && id in q.streams
    decreases |steps|
  {
    if steps == [] then []
    else
      SoundAgain(q, steps[0]);
      StepFollows(q, steps[0]);
      Reaching(q, steps[0], id) + Projected(Next(q, steps[0]), steps[1..], id)
  }

  lemma WorkersStreamIsOpen(q: Queue, name: string, w: nat)
    requires LanesOk(q) && JobsOk(q) && AtStage(q, name, w) && !StageAt(q, name, w).Closing?
    ensures var id := JobAt(q, name, w); id in q.streams && !q.streams[id].closed
  {
    WorkerHolds(q, name, w);
    assert JobOk(q, JobAt(q, name, w));
  }

  lemma WorkersReachingIsLegal(q: Queue, s: Step, id: JobId)
    requires LanesOk(q) && JobsOk(q) && Linked(q) && Enabled(q, s) && id in q.streams
    requires s.Publishes? || s.PublishesError? || s.Finishes?
    requires Reaching(q, s, id) != []
    ensures S.Legal(q.streams[id], Reaching(q, s, id)[0])
  {
    WorkersStreamIsOpen(q, s.lane, s.worker);
  }

  /** The queue only ever takes legal steps on a stream. */
  lemma ReachingIsLegal(q: Queue, s: Step, id: JobId)
    requires LanesOk(q) && JobsOk(q) && StreamsOk(q) && Linked(q) && q.live == q.registry.records.Keys
    requires Enabled(q, s) && id in q.streams && Reaching(q, s, id) != []
    ensures S.Legal(q.streams[id], Reaching(q, s, id)[0])
  {
    if s.Publishes? || s.PublishesError? || s.Finishes? {
      WorkersReachingIsLegal(q, s, id);
    } else if s.BufferExpires? {
      TimedIsOver(q, id);
    } else if s.SweepsUp? {
      SweepReachingIsLegal(q, id);
    }
  }

  lemma SweepReachingIsLegal(q: Queue, id: JobId)
    requires JobsOk(q) && id in q.streams && id in q.registry.records && q.registry.records[id].state != Terminal
    ensures S.Legal(q.streams[id], S.Close)
  {
    assert JobOk(q, id);
  }

  lemma ReachingIsAll(q: Queue, s: Step, id: JobId)
    requires Linked(q) && Enabled(q, s) && id in q.streams
    ensures id in Next(q, s).streams && |Reaching(q, s, id)| <= 1
    ensures Reaching(q, s, id) == [] ==> Next(q, s).streams[id] == q.streams[id]
    ensures Reaching(q, s, id) != [] && S.Runnable(q.streams[id], Reaching(q, s, id)[0]) ==>
      Next(q, s).streams[id] == S.Apply(q.streams[id], Reaching(q, s, id)[0])
  {
    if s.Publishes? || s.PublishesError? || s.Finishes? {
      WorkersReachingIsAll(q, s, id);
    }
  }

  lemma WorkersReachingIsAll(q: Queue, s: Step, id: JobId)
    requires Linked(q) && Enabled(q, s) && id in q.streams
    requires s.Publishes? || s.PublishesError? || s.Finishes?
    ensures id in Next(q, s).streams && |Reaching(q, s, id)| <= 1
    ensures Reaching(q, s, id) == [] ==> Next(q, s).streams[id] == q.streams[id]
    ensures Reaching(q, s, id) != [] ==> Next(q, s).streams[id] == S.Apply(q.streams[id], Reaching(q, s, id)[0])
  {
  }

  lemma StreamChain(s: S.Stream, seen: seq<S.Action>, s': S.Stream, rest: seq<S.Action>)
    requires S.StreamOk(s) && S.StreamOk(s') && S.Playable(s', rest) && |seen| <= 1
    requires seen == [] ==> s' == s
    requires seen != [] ==> S.Legal(s, seen[0]) && (S.Runnable(s, seen[0]) ==> s' == S.Apply(s, seen[0]))
    ensures S.Playable(s, seen + rest) && S.Play(s, seen + rest) == S.Play(s', rest)
  {
    if seen == [] {
      assert seen + rest == rest;
    } else {
      assert seen == [seen[0]];
      S.PlayFrom(s, seen[0], rest);
    }
  }

  lemma ProjectedFirst(q: Queue, s: Step, later: seq<Step>, id: JobId)
    requires Sound(q) && Playable(q, [s] + later) && id in q.streams
    ensures Enabled(q, s) && Sound(Next(q, s)) && Playable(Next(q, s), later) && id in Next(q, s).streams
    ensures Projected(q, [s] + later, id) == Reaching(q, s, id) + Projected(Next(q, s), later, id)
  {
    PlayFirst(q, s, later);
    StepFollows(q, s);
    assert ([s] + later)[0] == s && ([s] + later)[1..] == later;
  }

  /** A stream comes out of a run of the queue as it does of the run's steps on it. */
  ghost predicate PlaysWithin(q: Queue, steps: seq<Step>, id: JobId)
    requires Sound(q) && Playable(q, steps) && id in q.streams
  {
    && S.StreamOk(q.streams[id]) && S.Playable(q.streams[id], Projected(q, steps, id))
    && id in Play(q, steps).streams && Play(q, steps).streams[id] == S.Play(q.streams[id], Projected(q, steps, id))
  }

  /** Within any run of the queue, each stream undergoes a legal run of its own. */
  lemma {:induction false} StreamsPlay(q: Queue, steps: seq<Step>, id: JobId)
    requires Sound(q) && Playable(q, steps) && id in q.streams
    ensures PlaysWithin(q, steps, id)
    decreases |steps|, 1
  {
    StreamIsSound(q, id);
    if steps != [] {
      assert steps == [steps[0]] + steps[1..];
      StreamsPlayFirst(q, steps[0], steps[1..], id);
    }
  }

  lemma StreamsPlayFirst(q: Queue, s: Step, later: seq<Step>, id: JobId)
    requires Sound(q) && Playable(q, [s] + later) && id in q.streams && S.StreamOk(q.streams[id])
    ensures PlaysWithin(q, [s] + later, id)
    decreases |later| + 1, 0
  {
    PlayFirst(q, s, later);
    ProjectedFirst(q, s, later, id);
    ReachingIsAll(q, s, id);
    if Reaching(q, s, id) != [] {
      ReachingIsLegal(q, s, id);
    }
    StreamsPlay(Next(q, s), later, id);
    StreamChain(q.streams[id], Reaching(q, s, id), Next(q, s).streams[id], Projected(Next(q, s), later, id));
  }

  lemma StreamIsSound(q: Queue, id: JobId)
    requires StreamsOk(q) && id in q.streams
    ensures S.StreamOk(q.streams[id]) && q.streams[id].capacity == q.cfg.capacity
  {
  }

  /**
   Under any interleaving of submissions, dispatch, publishing, finishing, eviction and
   shutdown: a reader that first runs when *n* frames of its job are published is handed the
   last min(capacity, n) of them, or none once the buffer is discarded, then every later
   frame in order; it returns only when it has them all.
   */
  lemma ReadersSeeAnUnbrokenTail(q: Queue, id: JobId, i: nat, later: seq<Step>)
    requires Sound(q) && Playable(q, [Reads(id, S.Join(i))] + later)
    ensures id in q.streams && id in Play(q, [Reads(id, S.Join(i))] + later).streams
    ensures q.streams[id].capacity == q.cfg.capacity
    ensures S.SeesTail(q.streams[id], i, Play(q, [Reads(id, S.Join(i))] + later).streams[id])
  {
    var join := Reads(id, S.Join(i));
    assert ([join] + later)[0] == join;
    StreamIsSound(q, id);
    StreamsPlay(q, [join] + later, id);
    ProjectedFirst(q, join, later, id);
    assert Reaching(q, join, id) == [S.Join(i)];
    S.ReaderSeesAnUnbrokenTail(q.streams[id], i, Projected(Next(q, join), later, id));
  }
}
