/** What holds of whole runs of the queue, however its steps interleave. */
module JobQueueRuns {
  import opened Options
  import S = JobStreams
  import opened JobRegistry
  import opened JobQueue
  import opened JobQueueInvariant

  /** A queue whose invariant holds; no lookup of an enabled step can fail on it. */
  ghost predicate Sound(q: Queue) {
    Inv(q) && Linked(q)
  }

  lemma SoundAgain(q: Queue, s: Step)
    requires Sound(q) && Enabled(q, s)
    ensures Sound(Next(q, s))
  {
    StepKeeps(q, s);
    InvariantLinks(Next(q, s));
  }

  lemma UnstartedIsSound(cfg: Settings)
    ensures Sound(Unstarted(cfg))
  {
    UnstartedHolds(cfg);
  }

  ghost predicate Playable(q: Queue, steps: seq<Step>)
    requires Sound(q)
    decreases |steps|
  {
    steps == [] || (Enabled(q, steps[0]) && (SoundAgain(q, steps[0]); Playable(Next(q, steps[0]), steps[1..])))
  }

  ghost function Play(q: Queue, steps: seq<Step>): (r: Queue)
    requires Sound(q) && Playable(q, steps)
    ensures Sound(r)
    decreases |steps|
  {
    if steps == [] then q else (SoundAgain(q, steps[0]); Play(Next(q, steps[0]), steps[1..]))
  }

  lemma PlayFirst(q: Queue, s: Step, later: seq<Step>)
    requires Sound(q) && Playable(q, [s] + later)
    ensures Enabled(q, s) && Sound(Next(q, s)) && Playable(Next(q, s), later)
    ensures Play(q, [s] + later) == Play(Next(q, s), later)
  {
    assert ([s] + later)[0] == s && ([s] + later)[1..] == later;
    SoundAgain(q, s);
  }

  // --------------------------------------------------------------- records advance

  function Order(s: JobState): nat {
    match s case Queued => 0 case Running => 1 case Terminal => 2
  }

  /** A record keeps its lane and scope, only moves forward, and once terminal keeps its outcome. */
  predicate Advances(r: Record, r': Record) {
    && r'.lane == r.lane && r'.scope == r.scope && Order(r.state) <= Order(r'.state)
    && (r.truncated ==> r'.truncated)
    && (r.state == Terminal ==> r' == r.(truncated := r'.truncated))
  }

  /** No id is used twice, and every record that is still held has only advanced. */
  predicate Follows(q: Queue, q': Queue) {
    && (forall id :: id in q.streams ==> id in q'.streams)
    && (forall id :: id in q.streams && id in q'.registry.records ==>
          id in q.registry.records && Advances(q.registry.records[id], q'.registry.records[id]))
  }

  lemma SubmitFollows(q: Queue, name: string, id: JobId, request: Submission)
    requires Enabled(q, Submits(name, id, request))
    ensures Follows(q, Submit(q, name, id, request))
  {
  }

  lemma DequeueFollows(q: Queue, name: string, w: nat)
    requires LanesOk(q) && CanDequeue(q, name, w) && q.lanes[name].fifo[0] in q.registry.records
    ensures Follows(q, Dequeue(q, name, w))
  {
    HeadFacts(q, name, w);
    var id := q.lanes[name].fifo[0];
    var rest := q.lanes[name].fifo[1..];
    HeadRuns(q.registry.records, rest, id);
    forall j | j in q.registry.records
      ensures Advances(q.registry.records[j], Dequeue(q, name, w).registry.records[j])
    {
      if j != id {
        OthersStand(q.registry.records, rest, id, j);
      }
    }
  }

  lemma PublishFollows(q: Queue, id: JobId, e: S.Event)
    requires Linked(q) && id in q.registry.records && id in q.streams
    ensures Follows(q, PublishTo(q, id, e))
  {
    var records := PublishTo(q, id, e).registry.records;
    forall j | j in q.registry.records ensures j in records && Advances(q.registry.records[j], records[j]) {
    }
    assert PublishTo(q, id, e).streams.Keys == q.streams.Keys;
  }

  lemma FinishFollows(q: Queue, name: string, w: nat)
    requires LanesOk(q) && Linked(q) && Enabled(q, Finishes(name, w))
    ensures Follows(q, Finished(q, name, w))
  {
    WorkerHolds(q, name, w);
  }

  lemma EvictionFollows(q: Queue, id: JobId)
    requires Linked(q) && q.live == q.registry.records.Keys
    ensures Follows(q, DropBuffer(q, id)) && Follows(q, DropRecord(q, id))
  {
    BufferDropFollows(q, id);
    var records := DropRecord(q, id).registry.records;
    forall j | j in records ensures j in q.registry.records && Advances(q.registry.records[j], records[j]) {
    }
  }

  lemma BufferDropFollows(q: Queue, id: JobId)
    requires Linked(q) && q.live == q.registry.records.Keys
    ensures Follows(q, DropBuffer(q, id))
  {
    var records := DropBuffer(q, id).registry.records;
    forall j | j in q.registry.records ensures j in records && Advances(q.registry.records[j], records[j]) {
    }
    assert DropBuffer(q, id).streams.Keys == q.streams.Keys;
  }

  lemma UnmovedFollows(q: Queue, q': Queue)
    requires q'.registry == q.registry && q.streams.Keys <= q'.streams.Keys
    ensures Follows(q, q')
  {
  }

  lemma SweepFollows(q: Queue)
    requires Buffered(q)
    ensures Follows(q, Sweep(q))
  {
  }

  lemma WorkerStepFollows(q: Queue, s: Step)
    requires LanesOk(q) && Linked(q) && Enabled(q, s)
    requires s.Publishes? || s.PublishesError? || s.Finishes? || s.Raises? || s.Releases?
    ensures Follows(q, Next(q, s))
  {
    match s
    case Publishes(name, w, e) =>
      PublishFollows(q, HeldAt(q, name, w), e);
      UnmovedFollows(PublishTo(q, HeldAt(q, name, w), e), Next(q, s));
    case PublishesError(name, w, e) =>
      PublishFollows(q, HeldAt(q, name, w), e);
      UnmovedFollows(PublishTo(q, HeldAt(q, name, w), e), Next(q, s));
    case Finishes(name, w) => FinishFollows(q, name, w);
    case Raises(_, _, _) => UnmovedFollows(q, Next(q, s));
    case Releases(_, _) => UnmovedFollows(q, Next(q, s));
  }

  lemma StepFollows(q: Queue, s: Step)
    requires Sound(q) && Enabled(q, s)
    ensures Follows(q, Next(q, s))
  {
    match s
    case Submits(name, id, request) => SubmitFollows(q, name, id, request);
    case Dequeues(name, w) =>
      assert LaneLinked(q, q.lanes[name]);
      DequeueFollows(q, name, w);
    case BufferExpires(id) => EvictionFollows(q, id);
    case RecordExpires(id) => EvictionFollows(q, id);
    case Start => UnmovedFollows(q, Started(q));
    case MakesDefaultLane => UnmovedFollows(q, Next(q, s));
    case Reads(id, a) => UnmovedFollows(q, Read(q, id, a));
    case Stop => UnmovedFollows(q, Next(q, s));
    case SweepsUp => SweepFollows(q);
    case _ => WorkerStepFollows(q, s);
  }

  // ------------------------------------------------------------ the structures agree

  /**
   At every suspension point before the sweep: the requests held are exactly the queued
   jobs', the streams held exactly the records', a stream is closed exactly when its record
   is terminal, and a record says truncated exactly when frames of its job can no longer be
   replayed, whichever way they left.
   */
  lemma StructuresAgree(q: Queue)
    requires Inv(q) && q.life != Swept
    ensures q.requests.Keys == set id | id in q.registry.records && q.registry.records[id].state == Queued
    ensures q.live == q.registry.records.Keys
    ensures forall id :: id in q.live ==>
      && id in q.streams
      && (q.streams[id].closed <==> q.registry.records[id].state == Terminal)
      && (q.registry.records[id].truncated <==> q.streams[id].buffer != q.streams[id].published)
    ensures forall name :: name in q.lanes ==> q.lanes[name].pending == q.lanes[name].fifo
  {
    TablesAgree(q);
    forall id | id in q.live
      ensures id in q.streams && (q.streams[id].closed <==> q.registry.records[id].state == Terminal)
        && (q.registry.records[id].truncated <==> q.streams[id].buffer != q.streams[id].published)
    {
      RecordAgrees(q, id);
    }
    forall name | name in q.lanes ensures q.lanes[name].pending == q.lanes[name].fifo {
      LaneAgrees(q, name);
    }
  }

  lemma TablesAgree(q: Queue)
    requires TablesOk(q) && q.life != Swept
    ensures q.requests.Keys == set id | id in q.registry.records && q.registry.records[id].state == Queued
  {
  }

  lemma RecordAgrees(q: Queue, id: JobId)
    requires JobsOk(q) && id in q.registry.records
    ensures id in q.streams && (q.streams[id].closed <==> q.registry.records[id].state == Terminal)
    ensures q.registry.records[id].truncated <==> q.streams[id].buffer != q.streams[id].published
  {
    assert JobOk(q, id);
  }

  lemma LaneAgrees(q: Queue, name: string)
    requires LanesOk(q) && name in q.lanes
    ensures q.life != Swept ==> q.lanes[name].pending == q.lanes[name].fifo
    ensures q.life == Swept ==> q.lanes[name].pending == [] && q.lanes[name].workers == []
  {
    assert LaneOk(q, name);
  }

  /** A refused submission changes nothing, and only a stopped queue or a full lane refuses. */
  lemma RefusalChangesNothing(q: Queue, name: string, id: JobId, request: Submission)
    requires Inv(q) && id !in q.streams
    ensures Submit(q, name, id, request) == q <==> q.life != Serving || Full(q, name)
    ensures Submit(q, name, id, request) != q ==>
      var q' := Submit(q, name, id, request);
      && id in q'.requests && id in q'.registry.records && name in q'.lanes
      && q'.registry.records[id].position == Some(|q'.lanes[name].fifo|)
  {
    if !Refuses(q, name) {
      if name in q.lanes {
        LaneAgrees(q, name);
      }
      AdmissionIsQueued(q, name, id, request);
    }
  }

  lemma AdmissionIsQueued(q: Queue, name: string, id: JobId, request: Submission)
    requires !Refuses(q, name) && (name in q.lanes ==> q.lanes[name].pending == q.lanes[name].fifo)
    ensures var q' := Submit(q, name, id, request);
      && q'.submitted == q.submitted + [id] && id in q'.requests && id in q'.registry.records && name in q'.lanes
      && q'.registry.records[id].position == Some(|q'.lanes[name].fifo|)
  {
  }

  // -------------------------------------------------------------- order and number

  function JobsIn(workers: seq<Worker>): (r: set<JobId>)
    ensures |r| <= |workers|
    ensures forall w :: 0 <= w < |workers| && workers[w].Busy? ==> workers[w].job in r
  {
    if workers == [] then {}
    else
      var rest := JobsIn(workers[1..]);
      if workers[0].Busy? then {workers[0].job} + rest else rest
  }

  function RunningOn(q: Queue, name: string): set<JobId> {
    set id | id in q.registry.records && q.registry.records[id].lane == name && q.registry.records[id].state == Running
  }

  lemma SubsetIsSmaller(a: set<JobId>, b: set<JobId>)
    requires a <= b
    ensures |a| <= |b|
  {
    if a != {} {
      var x :| x in a;
      SubsetIsSmaller(a - {x}, b - {x});
    }
  }

  /**
   At every point of every run: a lane has at most as many jobs running as it has workers;
   what it has started is the front of what it has accepted, in order, and the rest is what
   waits, each at its own one-based position.
   */
  lemma LanesAreServedInOrder(q: Queue, name: string)
    requires Inv(q) && name in q.lanes && q.life != Swept
    ensures |RunningOn(q, name)| <= q.cfg.workersPerLane
    ensures q.lanes[name].accepted == q.lanes[name].started + q.lanes[name].pending
    ensures forall i :: 0 <= i < |q.lanes[name].pending| ==>
      && q.lanes[name].pending[i] in q.registry.records
      && q.registry.records[q.lanes[name].pending[i]].position == Some(i + 1)
  {
    var lane := q.lanes[name];
    assert LaneOk(q, name);
    forall id | id in RunningOn(q, name) ensures id in JobsIn(lane.workers) {
      assert JobOk(q, id);
      var w :| 0 <= w < |lane.workers| && lane.workers[w].Busy? && lane.workers[w].job == id;
    }
    SubsetIsSmaller(RunningOn(q, name), JobsIn(lane.workers));
    forall i | 0 <= i < |lane.pending| ensures QueuedAt(q, name, lane.pending[i], i) {
      assert QueuedAt(q, name, lane.fifo[i], i);
    }
  }

  /** What a lane has accepted and started only ever grows at the end. */
  predicate Grows(q: Queue, q': Queue) {
    && q'.cfg == q.cfg
    && forall name :: name in q.lanes ==>
      && name in q'.lanes && q.lanes[name].accepted <= q'.lanes[name].accepted
      && q.lanes[name].started <= q'.lanes[name].started
  }

  lemma LaneGrows(q: Queue, name: string, lane: Lane, q': Queue)
    requires q'.lanes == q.lanes[name := lane] && q'.cfg == q.cfg
    requires name in q.lanes ==> q.lanes[name].accepted <= lane.accepted && q.lanes[name].started <= lane.started
    ensures Grows(q, q')
  {
  }

  lemma WorkerStepGrows(q: Queue, s: Step)
    requires Linked(q) && Enabled(q, s)
    requires s.Publishes? || s.PublishesError? || s.Finishes? || s.Raises? || s.Releases?
    ensures Grows(q, Next(q, s))
  {
    var q' := Next(q, s);
    assert q'.lanes == q.lanes[s.lane := q'.lanes[s.lane]];
    LaneGrows(q, s.lane, q'.lanes[s.lane], q');
  }

  lemma ServingStepGrows(q: Queue, s: Step)
    requires Linked(q) && Enabled(q, s) && (s.Submits? || s.Dequeues?)
    ensures Grows(q, Next(q, s))
  {
    match s
    case Submits(name, id, request) =>
      if !Refuses(q, name) {
        var q' := Enqueue(EnsureLane(q, name), name, id, request);
        assert q'.lanes == q.lanes[name := q'.lanes[name]];
        LaneGrows(q, name, q'.lanes[name], q');
      }
    case Dequeues(name, w) =>
      assert LaneLinked(q, q.lanes[name]);
      LaneGrows(q, name, Dequeue(q, name, w).lanes[name], Dequeue(q, name, w));
  }

  lemma StepGrows(q: Queue, s: Step)
    requires Linked(q) && Enabled(q, s)
    ensures Grows(q, Next(q, s))
  {
    match s
    case Submits(_, _, _) => ServingStepGrows(q, s);
    case Dequeues(_, _) => ServingStepGrows(q, s);
    case Start =>
    case MakesDefaultLane =>
      if DEFAULT_LANE !in q.lanes {
        LaneGrows(q, DEFAULT_LANE, NewLane(q.cfg), Next(q, s));
      }
    case BufferExpires(_) =>
    case RecordExpires(_) =>
    case Reads(_, _) =>
    case Stop =>
    case SweepsUp =>
    case _ => WorkerStepGrows(q, s);
  }

  lemma {:induction false} RunsGrow(q: Queue, steps: seq<Step>)
    requires Sound(q) && Playable(q, steps)
    ensures Grows(q, Play(q, steps))
    decreases |steps|
  {
    if steps != [] {
      SoundAgain(q, steps[0]);
      StepGrows(q, steps[0]);
      RunsGrow(Next(q, steps[0]), steps[1..]);
      GrowsOn(q, Next(q, steps[0]), Play(q, steps));
    }
  }

  lemma GrowsOn(q: Queue, q': Queue, q'': Queue)
    requires Grows(q, q') && Grows(q', q'')
    ensures Grows(q, q'')
  {
  }

  // ------------------------------------------------------- no job ends unbegun

  /** A job that is no longer queued was started by its lane, or is one the stop found open. */
  predicate Begun(q: Queue, id: JobId)
    requires id in q.registry.records
  {
    var r := q.registry.records[id];
    || r.state == Queued
    || (r.lane in q.lanes && id in q.lanes[r.lane].started)
    || (q.life == Swept && r.outcome == Some(S.ShutdownAbandoned))
  }

  /** Every record held is begun if it was begun, or not held, before. */
  predicate Begins(q: Queue, q': Queue) {
    forall id :: id in q'.registry.records && (id in q.registry.records ==> Begun(q, id)) ==> Begun(q', id)
  }

  /** No record has gone more than one state on, so none has gone from queued to terminal. */
  predicate OneStateOn(q: Queue, q': Queue) {
    forall id :: id in q.registry.records && id in q'.registry.records ==>
      Order(q'.registry.records[id].state) <= Order(q.registry.records[id].state) + 1
  }

  /** No record has come, and none has changed in what *Begun* reads. */
  predicate SameStates(q: Queue, q': Queue) {
    forall id :: id in q'.registry.records ==>
      && id in q.registry.records
      && q'.registry.records[id].lane == q.registry.records[id].lane
      && q'.registry.records[id].state == q.registry.records[id].state
      && q'.registry.records[id].outcome == q.registry.records[id].outcome
  }

  lemma SameStatesBegin(q: Queue, q': Queue)
    requires SameStates(q, q') && Grows(q, q') && (q.life == Swept ==> q'.life == Swept)
    ensures Begins(q, q') && OneStateOn(q, q')
  {
  }

  lemma PublishSameStates(q: Queue, id: JobId, e: S.Event)
    requires Linked(q) && id in q.registry.records && id in q.streams
    ensures SameStates(q, PublishTo(q, id, e)) && PublishTo(q, id, e).life == q.life
  {
  }

  lemma EvictionSameStates(q: Queue, id: JobId)
    requires Linked(q)
    ensures SameStates(q, DropBuffer(q, id)) && DropBuffer(q, id).life == q.life
    ensures SameStates(q, DropRecord(q, id)) && DropRecord(q, id).life == q.life
  {
  }

  lemma SubmitBegins(q: Queue, name: string, id: JobId, request: Submission)
    requires Grows(q, Submit(q, name, id, request)) && id !in q.registry.records
    ensures Begins(q, Submit(q, name, id, request)) && OneStateOn(q, Submit(q, name, id, request))
  {
  }

  lemma DequeueBegins(q: Queue, name: string, w: nat)
    requires LanesOk(q) && CanDequeue(q, name, w) && q.lanes[name].fifo[0] in q.registry.records
    requires Grows(q, Dequeue(q, name, w))
    ensures Begins(q, Dequeue(q, name, w)) && OneStateOn(q, Dequeue(q, name, w))
  {
    HeadFacts(q, name, w);
    var q', id := Dequeue(q, name, w), q.lanes[name].fifo[0];
    var rest := q.lanes[name].fifo[1..];
    HeadRuns(q.registry.records, rest, id);
    assert id in q'.lanes[name].started;
    forall j | j in q.registry.records && j != id
      ensures q'.registry.records[j].(position := None) == q.registry.records[j].(position := None)
    {
      OthersStand(q.registry.records, rest, id, j);
    }
  }

  lemma FinishBegins(q: Queue, name: string, w: nat)
    requires Enabled(q, Finishes(name, w)) && Linked(q) && LanesOk(q)
    requires Grows(q, Finished(q, name, w))
    ensures Begins(q, Finished(q, name, w)) && OneStateOn(q, Finished(q, name, w))
  {
    WorkerHolds(q, name, w);
  }

  lemma SweepBegins(q: Queue)
    requires Buffered(q) && q.life == Stopping && Grows(q, Sweep(q))
    ensures Begins(q, Sweep(q))
  {
  }

  lemma WorkerStepSameStates(q: Queue, s: Step)
    requires Enabled(q, s) && Linked(q)
    requires s.Publishes? || s.PublishesError? || s.Raises? || s.Releases?
    ensures SameStates(q, Next(q, s)) && Next(q, s).life == q.life
  {
    match s
    case Publishes(name, w, e) => PublishSameStates(q, HeldAt(q, name, w), e);
    case PublishesError(name, w, e) => PublishSameStates(q, HeldAt(q, name, w), e);
    case Raises(_, _, _) =>
    case Releases(_, _) =>
  }

  lemma PassingStepSameStates(q: Queue, s: Step)
    requires Enabled(q, s) && Linked(q)
    requires s.BufferExpires? || s.RecordExpires? || s.Start? || s.MakesDefaultLane? || s.Reads? || s.Stop?
    ensures SameStates(q, Next(q, s)) && (q.life == Swept ==> Next(q, s).life == Swept)
  {
    match s
    case BufferExpires(id) => EvictionSameStates(q, id);
    case RecordExpires(id) => EvictionSameStates(q, id);
    case Start =>
    case MakesDefaultLane =>
    case Reads(_, _) =>
    case Stop =>
  }

  predicate MovesStates(s: Step) {
    s.Submits? || s.Dequeues? || s.Finishes? || s.SweepsUp?
  }

  lemma OtherStepBegins(q: Queue, s: Step)
    requires Enabled(q, s) && Linked(q) && !MovesStates(s)
    ensures Begins(q, Next(q, s)) && OneStateOn(q, Next(q, s))
  {
    if s.Publishes? || s.PublishesError? || s.Raises? || s.Releases? {
      WorkerStepSameStates(q, s);
    } else {
      PassingStepSameStates(q, s);
    }
    StepGrows(q, s);
    SameStatesBegin(q, Next(q, s));
  }

  lemma MovingStepBegins(q: Queue, s: Step)
    requires Enabled(q, s) && Linked(q) && LanesOk(q) && JobsOk(q) && MovesStates(s)
    ensures Begins(q, Next(q, s))
    ensures s != SweepsUp ==> OneStateOn(q, Next(q, s))
  {
    StepGrows(q, s);
    match s
    case Submits(name, id, request) =>
      NewcomerIsUnknown(q, id);
      SubmitBegins(q, name, id, request);
    case Dequeues(name, w) =>
      assert LaneLinked(q, q.lanes[name]);
      DequeueBegins(q, name, w);
    case Finishes(name, w) => FinishBegins(q, name, w);
    case SweepsUp => SweepBegins(q);
  }

  /** No job goes from queued to terminal but in the sweep, and none leaves the queue unstarted. */
  lemma StepBegins(q: Queue, s: Step)
    requires Enabled(q, s) && Linked(q) && LanesOk(q) && JobsOk(q)
    ensures Begins(q, Next(q, s))
    ensures s != SweepsUp ==> OneStateOn(q, Next(q, s))
  {
    if MovesStates(s) {
      MovingStepBegins(q, s);
    } else {
      OtherStepBegins(q, s);
    }
  }

  /**
   Over any run: states only move forward, a terminal outcome never changes, and a job that was
   queued and is no longer was started by its lane, unless the stop found it open.
   */
  lemma {:induction false} RunsFollow(q: Queue, steps: seq<Step>)
    requires Sound(q) && Playable(q, steps)
    ensures Follows(q, Play(q, steps)) && Begins(q, Play(q, steps))
    decreases |steps|
  {
    if steps != [] {
      var q', end := Next(q, steps[0]), Play(q, steps);
      SoundAgain(q, steps[0]);
      StepFollows(q, steps[0]);
      StepBegins(q, steps[0]);
      RunsFollow(q', steps[1..]);
      FollowsOn(q, q', end);
      BeginsOn(q, q', end);
    }
  }

  lemma FollowsOn(q: Queue, q': Queue, q'': Queue)
    requires Follows(q, q') && Follows(q', q'')
    ensures Follows(q, q'')
  {
  }

  lemma BeginsOn(q: Queue, q': Queue, q'': Queue)
    requires Begins(q, q') && Begins(q', q'')
    ensures Begins(q, q'')
  {
  }

  // ------------------------------------------------------------ submission order

  /** A submission the queue took. */
  datatype Admission = Admission(lane: string, id: JobId)

  function Admitted(q: Queue, s: Step): seq<Admission> {
    if s.Submits? && !Refuses(q, s.lane) then [Admission(s.lane, s.id)] else []
  }

  /** The submissions a run takes, in the order it takes them. */
  ghost function Admissions(q: Queue, steps: seq<Step>): seq<Admission>
    requires Sound(q) && Playable(q, steps)
    decreases |steps|
  {
    if steps == [] then []
    else
      SoundAgain(q, steps[0]);
      Admitted(q, steps[0]) + Admissions(Next(q, steps[0]), steps[1..])
  }

  function Ids(admissions: seq<Admission>): seq<JobId> {
    if admissions == [] then [] else [admissions[0].id] + Ids(admissions[1..])
  }

  /** The ones sent to a lane. */
  function SentTo(name: string, admissions: seq<Admission>): seq<JobId> {
    if admissions == [] then []
    else (if admissions[0].lane == name then [admissions[0].id] else []) + SentTo(name, admissions[1..])
  }

  function AcceptedBy(q: Queue, name: string): seq<JobId> {
    if name in q.lanes then q.lanes[name].accepted else []
  }

  lemma {:induction false} IdsAppend(a: seq<Admission>, b: seq<Admission>)
    ensures Ids(a + b) == Ids(a) + Ids(b)
  {
    if a == [] {
      assert a + b == b;
    } else {
      var rest := a[1..];
      assert (a + b)[0] == a[0] && (a + b)[1..] == rest + b;
      IdsAppend(rest, b);
      assert [a[0].id] + (Ids(rest) + Ids(b)) == ([a[0].id] + Ids(rest)) + Ids(b);
    }
  }

  lemma {:induction false} SentToAppend(name: string, a: seq<Admission>, b: seq<Admission>)
    ensures SentTo(name, a + b) == SentTo(name, a) + SentTo(name, b)
  {
    if a == [] {
      assert a + b == b;
    } else {
      var head, rest := if a[0].lane == name then [a[0].id] else [], a[1..];
      assert (a + b)[0] == a[0] && (a + b)[1..] == rest + b;
      SentToAppend(name, rest, b);
      assert head + (SentTo(name, rest) + SentTo(name, b)) == (head + SentTo(name, rest)) + SentTo(name, b);
    }
  }

  /** The queue has gained these submissions in this order, and the lane those of them sent to it. */
  predicate Admits(q: Queue, admissions: seq<Admission>, q': Queue, name: string) {
    && q'.submitted == q.submitted + Ids(admissions)
    && AcceptedBy(q', name) == AcceptedBy(q, name) + SentTo(name, admissions)
  }

  lemma SubmitAdmits(q: Queue, sent: string, id: JobId, request: Submission, name: string)
    ensures Admits(q, Admitted(q, Submits(sent, id, request)), Submit(q, sent, id, request), name)
  {
    if !Refuses(q, sent) {
      var a := Admission(sent, id);
      assert [a][1..] == [];
      assert Ids([a]) == [id];
      assert SentTo(name, [a]) == if sent == name then [id] else [];
    }
  }

  lemma NothingAdmitted(q: Queue, q': Queue, name: string)
    requires q'.submitted == q.submitted && AcceptedBy(q', name) == AcceptedBy(q, name)
    ensures Admits(q, [], q', name)
  {
  }

  lemma WorkerStepAdmits(q: Queue, s: Step, name: string)
    requires Enabled(q, s) && Linked(q)
    requires s.Publishes? || s.PublishesError? || s.Finishes? || s.Raises? || s.Releases?
    ensures Admits(q, [], Next(q, s), name)
  {
    var q' := Next(q, s);
    assert q'.lanes == q.lanes[s.lane := q'.lanes[s.lane]];
    NothingAdmitted(q, q', name);
  }

  lemma StepAdmits(q: Queue, s: Step, name: string)
    requires Enabled(q, s) && Linked(q)
    ensures Admits(q, Admitted(q, s), Next(q, s), name)
  {
    if s.Submits? {
      SubmitAdmits(q, s.lane, s.id, s.request, name);
    } else if s.Publishes? || s.PublishesError? || s.Finishes? || s.Raises? || s.Releases? {
      WorkerStepAdmits(q, s, name);
    } else {
      NothingAdmitted(q, Next(q, s), name);
    }
  }

  lemma AdmissionsFirst(q: Queue, s: Step, later: seq<Step>)
    requires Sound(q) && Playable(q, [s] + later)
    ensures Enabled(q, s) && Sound(Next(q, s)) && Playable(Next(q, s), later)
    ensures Play(q, [s] + later) == Play(Next(q, s), later)
    ensures Admissions(q, [s] + later) == Admitted(q, s) + Admissions(Next(q, s), later)
  {
    PlayFirst(q, s, later);
    assert ([s] + later)[0] == s && ([s] + later)[1..] == later;
  }

  /** Over any run: what a lane gains is what was sent to it, in the order it was submitted. */
  lemma {:induction false} RunsAdmit(q: Queue, steps: seq<Step>, name: string)
    requires Sound(q) && Playable(q, steps)
    ensures Admits(q, Admissions(q, steps), Play(q, steps), name)
    decreases |steps|
  {
    if steps == [] {
      NothingAdmitted(q, q, name);
    } else {
      var s, later := steps[0], steps[1..];
      assert steps == [s] + later;
      AdmissionsFirst(q, s, later);
      StepAdmits(q, s, name);
      var q' := Next(q, s);
      RunsAdmit(q', later, name);
      AdmitsOn(q, Admitted(q, s), q', Admissions(q', later), Play(q', later), name);
    }
  }

  lemma IdsOn(before: seq<JobId>, a: seq<Admission>, b: seq<Admission>)
    ensures before + Ids(a) + Ids(b) == before + Ids(a + b)
  {
    IdsAppend(a, b);
  }

  lemma SentToOn(name: string, before: seq<JobId>, a: seq<Admission>, b: seq<Admission>)
    ensures before + SentTo(name, a) + SentTo(name, b) == before + SentTo(name, a + b)
  {
    SentToAppend(name, a, b);
  }

  lemma AdmitsOn(q: Queue, a: seq<Admission>, q': Queue, b: seq<Admission>, q'': Queue, name: string)
    requires Admits(q, a, q', name) && Admits(q', b, q'', name)
    ensures Admits(q, a + b, q'', name)
  {
    IdsOn(q.submitted, a, b);
    SentToOn(name, AcceptedBy(q, name), a, b);
  }

  // -------------------------------------------------------------------- shutdown

  /** No record is open, no stream the queue still holds is unclosed, and nothing waits or works. */
  predicate NothingOpen(q: Queue) {
    && (forall id :: id in q.registry.records ==> q.registry.records[id].state == Terminal)
    && (forall id :: id in q.live ==> id in q.streams && q.streams[id].closed)
    && (forall name :: name in q.lanes ==> q.lanes[name].pending == [] && q.lanes[name].workers == [])
  }

  lemma SweptIsQuiet(q: Queue)
    requires JobsOk(q) && LanesOk(q) && q.live == q.registry.records.Keys && q.life == Swept
    ensures NothingOpen(q)
  {
    forall id | id in q.registry.records
      ensures q.registry.records[id].state == Terminal && id in q.streams && q.streams[id].closed
    {
      assert JobOk(q, id);
    }
    forall name | name in q.lanes ensures q.lanes[name].pending == [] && q.lanes[name].workers == [] {
      LaneAgrees(q, name);
    }
  }

  /** After the sweep no step changes a record, a lane or the queue's table of streams. */
  lemma {:induction false} SweptStands(q: Queue, steps: seq<Step>)
    requires Sound(q) && Playable(q, steps) && q.life == Swept
    ensures var end := Play(q, steps);
      end.life == Swept && end.registry == q.registry && end.lanes == q.lanes && end.live == q.live
    decreases |steps|
  {
    if steps != [] {
      SoundAgain(q, steps[0]);
      SweptStep(q, steps[0]);
      SweptStands(Next(q, steps[0]), steps[1..]);
    }
  }

  lemma SweptStep(q: Queue, s: Step)
    requires Linked(q) && TablesOk(q) && Enabled(q, s) && q.life == Swept
    ensures var q' := Next(q, s);
      q'.life == Swept && q'.registry == q.registry && q'.lanes == q.lanes && q'.live == q.live
  {
    assert s.Submits? || s.Reads?;
  }

  /** The sweep gives every open record the outcome of a shutdown, and touches no other. */
  lemma SweepAbandonsTheOpen(q: Queue)
    requires Buffered(q)
    ensures Sweep(q).registry.records.Keys == q.registry.records.Keys
    ensures forall id :: id in q.registry.records ==>
      var r, r' := q.registry.records[id], Sweep(q).registry.records[id];
      r'.state == Terminal && r'.outcome == (if r.state == Terminal then r.outcome else Some(S.ShutdownAbandoned))
  {
  }

  /**
   A stop, whenever it sweeps up: every record that was open ends abandoned, every other
   keeps its outcome, and from then on nothing is ever open again.
   */
  lemma StopEndsEverything(q: Queue, later: seq<Step>)
    requires Sound(q) && Playable(q, [SweepsUp] + later)
    ensures var end := Play(q, [SweepsUp] + later);
      && NothingOpen(end) && end.registry.records.Keys == q.registry.records.Keys
      && (forall id :: id in q.registry.records ==>
            end.registry.records[id].outcome ==
              (var r := q.registry.records[id]; if r.state == Terminal then r.outcome else Some(S.ShutdownAbandoned)))
  {
    PlayFirst(q, SweepsUp, later);
    SweepAbandonsTheOpen(q);
    SweptStands(Sweep(q), later);
    SweptIsQuiet(Play(Sweep(q), later));
  }

  /** The steps can happen, one after another, to a new queue. */
  ghost predicate Happens(cfg: Settings, steps: seq<Step>) {
    UnstartedIsSound(cfg);
    Playable(Unstarted(cfg), steps)
  }

  ghost function QueueAfter(cfg: Settings, steps: seq<Step>): Queue
    requires Happens(cfg, steps)
  {
    UnstartedIsSound(cfg);
    Play(Unstarted(cfg), steps)
  }

  ghost function AdmittedBy(cfg: Settings, steps: seq<Step>): seq<Admission>
    requires Happens(cfg, steps)
  {
    UnstartedIsSound(cfg);
    Admissions(Unstarted(cfg), steps)
  }

  /** What every run of a new queue promises of a lane before the sweep. */
  ghost predicate ServesInOrder(q: Queue, name: string, sent: seq<JobId>)
    requires name in q.lanes
  {
    && |RunningOn(q, name)| <= q.cfg.workersPerLane
    && q.lanes[name].accepted == q.lanes[name].started + q.lanes[name].pending == sent
  }

  /**
   Every run of a new queue, whatever happens in whatever order: until the sweep each lane
   runs at most its worker count, and has started the front of what was sent to it, in the
   order of submission; no job ends that its lane has not started, unless the stop found it
   open; after the sweep, nothing is open.
   */
  lemma EveryRunKeepsItsPromises(cfg: Settings, steps: seq<Step>)
    requires Happens(cfg, steps)
    ensures var q, admissions := QueueAfter(cfg, steps), AdmittedBy(cfg, steps);
      && q.cfg == cfg && q.submitted == Ids(admissions)
      && (forall id :: id in q.registry.records ==> Begun(q, id))
      && (q.life == Swept ==> NothingOpen(q))
      && (q.life != Swept ==> forall name :: name in q.lanes ==> ServesInOrder(q, name, SentTo(name, admissions)))
  {
    UnstartedIsSound(cfg);
    var q := Play(Unstarted(cfg), steps);
    RunsGrow(Unstarted(cfg), steps);
    RunsFollow(Unstarted(cfg), steps);
    RunsAdmit(Unstarted(cfg), steps, DEFAULT_LANE);
    if q.life == Swept {
      SweptIsQuiet(q);
    } else {
      forall name | name in q.lanes ensures ServesInOrder(q, name, SentTo(name, Admissions(Unstarted(cfg), steps))) {
        LanesAreServedInOrder(q, name);
        RunsAdmit(Unstarted(cfg), steps, name);
      }
    }
  }
}
