/**
 The in-process queue as a transition system. A step runs from one real suspension point to
 the next, so nothing else happens within it; between steps anything may.
 */
module JobQueue {
  import opened Options
  import opened JobStreams
  import opened JobRegistry

  datatype Settings = Settings(workersPerLane: nat, maxDepth: nat, capacity: nat)

  datatype Submission = Submission(body: nat, scope: Option<nat>)

  /** How far a worker is with its job. */
  datatype Stage =
    | Engine(outcome: Option<Outcome>)   // iterating the run
    | Failing(fate: Outcome)             // the run raised; the error frame is still to come
    | Ending(outcome: Option<Outcome>)   // nothing left but to finish
    | Closing                            // finished; the eviction timers are still to come

  datatype Worker = Idle | Busy(job: JobId, stage: Stage)

  /** *accepted* and *started* are bookkeeping: every submission taken, and every one begun. */
  datatype Lane = Lane(
    fifo: seq<JobId>, pending: seq<JobId>, workers: seq<Worker>, accepted: seq<JobId>, started: seq<JobId>)

  datatype Life = Fresh | Serving | Stopping | Swept

  datatype Timer = BufferTimer(job: JobId) | RecordTimer(job: JobId)

  /** *streams* keeps every stream ever made, which readers may outlive; *live* is the queue's own table of them. */
  datatype Queue = Queue(
    cfg: Settings, life: Life, lanes: map<string, Lane>, registry: Registry, requests: map<JobId, Submission>,
    streams: map<JobId, Stream>, live: set<JobId>, timers: set<Timer>, submitted: seq<JobId>)

  function Unstarted(cfg: Settings): Queue {
    Queue(cfg, Fresh, map[], EMPTY, map[], map[], {}, {}, [])
  }

  function NewLane(cfg: Settings): Lane {
    Lane([], [], seq(cfg.workersPerLane, i => Idle), [], [])
  }

  const DEFAULT_LANE := "workflow"

  function EnsureLane(q: Queue, name: string): Queue {
    if name in q.lanes then q else q.(lanes := q.lanes[name := NewLane(q.cfg)])
  }

  // ---------------------------------------------------------------- submissions

  predicate Full(q: Queue, name: string) {
    name in q.lanes && 0 < q.cfg.maxDepth <= |q.lanes[name].fifo|
  }

  predicate Refuses(q: Queue, name: string) {
    q.life != Serving || Full(q, name)
  }

  function Enqueue(q: Queue, name: string, id: JobId, request: Submission): Queue
    requires name in q.lanes
  {
    var lane := q.lanes[name];
    q.(lanes := q.lanes[name := lane.(
         fifo := lane.fifo + [id], pending := lane.pending + [id], accepted := lane.accepted + [id])],
       registry := Add(q.registry, id, Record(name, Queued, Some(|lane.pending| + 1), request.scope, None, false)),
       requests := q.requests[id := request],
       streams := q.streams[id := Opened(q.cfg.capacity)],
       live := q.live + {id},
       submitted := q.submitted + [id])
  }

  function Submit(q: Queue, name: string, id: JobId, request: Submission): Queue {
    if Refuses(q, name) then q else Enqueue(EnsureLane(q, name), name, id, request)
  }

  // ------------------------------------------------------------------- dispatch

  function IndexOf(s: seq<JobId>, id: JobId): (i: nat)
    requires id in s
    ensures i < |s| && s[i] == id && id !in s[..i]
  {
    if s[0] == id then 0
    else
      assert s == [s[0]] + s[1..];
      1 + IndexOf(s[1..], id)
  }

  lemma IndexIsUnique(s: seq<JobId>, i: nat)
    requires Distinct(s) && i < |s|
    ensures IndexOf(s, s[i]) == i && s[i] !in s[..i]
  {
  }

  /** A list without the first occurrence of an element. */
  function Without(s: seq<JobId>, id: JobId): seq<JobId> {
    if s == [] then [] else if s[0] == id then s[1..] else [s[0]] + Without(s[1..], id)
  }

  /** Renumber the queued records a lane has pending, from one. */
  function Reindexed(records: map<JobId, Record>, pending: seq<JobId>): map<JobId, Record> {
    map id | id in records :: Renumbered(records[id], id, pending)
  }

  function Renumbered(r: Record, id: JobId, pending: seq<JobId>): Record {
    if id in pending && r.state == Queued then r.(position := Some(IndexOf(pending, id) + 1)) else r
  }

  /** The records once a lane's head is taken: what is left pending is renumbered, and the job runs. */
  function StartedRecords(records: map<JobId, Record>, pending: seq<JobId>, id: JobId): map<JobId, Record>
    requires id in records
  {
    var renumbered := Reindexed(records, pending);
    renumbered[id := renumbered[id].(state := Running, position := None)]
  }

  function Setting(q: Queue, name: string, w: nat, worker: Worker): Queue
    requires name in q.lanes && w < |q.lanes[name].workers|
  {
    q.(lanes := q.lanes[name := q.lanes[name].(workers := q.lanes[name].workers[w := worker])])
  }

  function Amended(q: Queue, id: JobId, record: Record): Queue {
    q.(registry := Amend(q.registry, id, record))
  }

  /** A worker takes the head of its lane and marks it running. */
  function Dequeue(q: Queue, name: string, w: nat): Queue
    requires name in q.lanes && w < |q.lanes[name].workers| && q.lanes[name].fifo != []
    requires q.lanes[name].fifo[0] in q.registry.records
  {
    var lane := q.lanes[name];
    var id := lane.fifo[0];
    var pending := Without(lane.pending, id);
    var workers := lane.workers[w := Busy(id, Engine(None))];
    q.(lanes := q.lanes[name := Lane(lane.fifo[1..], pending, workers, lane.accepted, lane.started + [id])],
       registry := q.registry.(records := StartedRecords(q.registry.records, pending, id)),
       requests := q.requests - {id})
  }

  // ------------------------------------------------------------------ a job's run

  /** A frame reaches the job's stream; the record says so the first time one is pushed out. */
  function PublishTo(q: Queue, id: JobId, event: Event): Queue
    requires id in q.streams && id in q.registry.records && |q.streams[id].buffer| <= |q.streams[id].published|
  {
    var stream := q.streams[id];
    var dropped := |stream.buffer| == stream.capacity;
    var record := q.registry.records[id];
    q.(streams := q.streams[id := Apply(stream, Publish(event))],
       registry :=
         if dropped && !record.truncated then Amend(q.registry, id, record.(truncated := true)) else q.registry)
  }

  function Finish(q: Queue, id: JobId, outcome: Option<Outcome>): Queue
    requires id in q.streams && id in q.registry.records && |q.streams[id].buffer| <= |q.streams[id].published|
  {
    var record := q.registry.records[id];
    q.(registry := Amend(q.registry, id, record.(state := Terminal, position := None, outcome := outcome)),
       streams := q.streams[id := Apply(q.streams[id], Close)])
  }

  // ------------------------------------------------------------------- eviction

  function DropBuffer(q: Queue, id: JobId): Queue
    requires id in q.live ==> id in q.streams && |q.streams[id].buffer| <= |q.streams[id].published|
  {
    var rest := q.(timers := q.timers - {BufferTimer(id)});
    if id !in q.live then rest
    else
      var stream := q.streams[id];
      var gone := rest.(streams := q.streams[id := Apply(stream, Discard)]);
      if stream.buffer != [] && id in q.registry.records && !q.registry.records[id].truncated then
        Amended(gone, id, q.registry.records[id].(truncated := true))
      else gone
  }

  function DropRecord(q: Queue, id: JobId): Queue {
    q.(timers := q.timers - {RecordTimer(id)}, registry := Forget(q.registry, id), live := q.live - {id})
  }

  // ------------------------------------------------------------------- shutdown

  function AbandonedRecord(r: Record): Record {
    if r.state == Terminal then r else r.(state := Terminal, position := None, outcome := Some(ShutdownAbandoned))
  }

  function SweptStream(q: Queue, id: JobId): Stream
    requires id in q.streams && |q.streams[id].buffer| <= |q.streams[id].published|
  {
    if id in q.live && id in q.registry.records && q.registry.records[id].state != Terminal
    then Apply(q.streams[id], Close)
    else q.streams[id]
  }

  /** No buffer holds more than was published. */
  predicate Buffered(q: Queue) {
    forall id :: id in q.streams ==> |q.streams[id].buffer| <= |q.streams[id].published|
  }

  /** Every lane emptied of its tasks and arrivals, every open record abandoned, every open stream closed. */
  function Sweep(q: Queue): Queue
    requires Buffered(q)
  {
    q.(life := Swept,
       lanes := map name | name in q.lanes :: q.lanes[name].(workers := [], pending := []),
       registry := q.registry.(records := map id | id in q.registry.records :: AbandonedRecord(q.registry.records[id])),
       streams := map id | id in q.streams :: SweptStream(q, id))
  }

  // ---------------------------------------------------------------------- steps

  datatype Step =
    | Start                                                       // submissions are taken from here on
    | MakesDefaultLane                                            // the end of a start
    | Submits(lane: string, id: JobId, request: Submission)
    | Dequeues(lane: string, worker: nat)
    | Publishes(lane: string, worker: nat, event: Event)          // the run hands over a frame
    | Raises(lane: string, worker: nat, timedOut: bool)           // the run raised, or its time limit ended it
    | PublishesError(lane: string, worker: nat, event: Event)
    | Finishes(lane: string, worker: nat)                         // the run is over, or its error frame is out
    | Releases(lane: string, worker: nat)                         // the eviction timers are set
    | BufferExpires(id: JobId)
    | RecordExpires(id: JobId)
    | Reads(id: JobId, action: Action)                            // a reader attaches, joins, takes or is closed
    | Stop
    | SweepsUp

  predicate WorkerAt(q: Queue, name: string, w: nat) {
    q.life == Serving && name in q.lanes && w < |q.lanes[name].workers|
  }

  predicate AtStage(q: Queue, name: string, w: nat) {
    WorkerAt(q, name, w) && q.lanes[name].workers[w].Busy?
  }

  function StageAt(q: Queue, name: string, w: nat): Stage
    requires AtStage(q, name, w)
  {
    q.lanes[name].workers[w].stage
  }

  function JobAt(q: Queue, name: string, w: nat): JobId
    requires AtStage(q, name, w)
  {
    q.lanes[name].workers[w].job
  }

  /** The step can happen: ids are fresh, and only what is there can move. */
  predicate Enabled(q: Queue, s: Step) {
    match s
    case Start => q.life == Fresh
    case MakesDefaultLane => q.life == Serving
    case Submits(_, id, _) => id !in q.streams
    case Dequeues(name, w) => WorkerAt(q, name, w) && q.lanes[name].workers[w].Idle? && q.lanes[name].fifo != []
    case Publishes(name, w, _) => AtStage(q, name, w) && StageAt(q, name, w).Engine?
    case Raises(name, w, _) => AtStage(q, name, w) && StageAt(q, name, w).Engine?
    case PublishesError(name, w, e) => AtStage(q, name, w) && StageAt(q, name, w).Failing? && e.terminal.None?
    case Finishes(name, w) => AtStage(q, name, w) && (StageAt(q, name, w).Engine? || StageAt(q, name, w).Ending?)
    case Releases(name, w) => AtStage(q, name, w) && StageAt(q, name, w).Closing?
    case BufferExpires(id) => BufferTimer(id) in q.timers
    case RecordExpires(id) => RecordTimer(id) in q.timers
    case Reads(id, a) => IsReading(a) && id in q.streams && Runnable(q.streams[id], a) && (a.Attach? ==> id in q.live)
    case Stop => q.life == Fresh || q.life == Serving
    case SweepsUp => q.life == Stopping
  }

  /** Every name a step looks up is there. */
  predicate Linked(q: Queue) {
    && Buffered(q)
    && (forall id :: id in q.live ==> id in q.streams)
    && (q.life == Serving ==> forall name :: name in q.lanes ==> LaneLinked(q, q.lanes[name]))
  }

  predicate LaneLinked(q: Queue, lane: Lane) {
    && (forall id :: id in lane.fifo ==> id in q.registry.records)
    && (forall w :: 0 <= w < |lane.workers| ==> InHand(q, lane.workers[w]))
  }

  predicate InHand(q: Queue, worker: Worker) {
    worker.Busy? ==> worker.job in q.registry.records && worker.job in q.streams
  }

  function Started(q: Queue): Queue {
    q.(life := Serving)
  }

  function Published(q: Queue, name: string, w: nat, event: Event): Queue
    requires Linked(q) && AtStage(q, name, w) && StageAt(q, name, w).Engine?
  {
    var id := HeldAt(q, name, w);
    var outcome := if event.terminal.Some? then event.terminal else StageAt(q, name, w).outcome;
    Setting(PublishTo(q, id, event), name, w, Busy(id, Engine(outcome)))
  }

  function Raised(q: Queue, name: string, w: nat, timedOut: bool): Queue
    requires AtStage(q, name, w)
  {
    Setting(q, name, w, Busy(JobAt(q, name, w), Failing(if timedOut then JobTimedOut else EngineError)))
  }

  function PublishedError(q: Queue, name: string, w: nat, event: Event): Queue
    requires Linked(q) && AtStage(q, name, w) && StageAt(q, name, w).Failing?
  {
    var id := HeldAt(q, name, w);
    Setting(PublishTo(q, id, event), name, w, Busy(id, Ending(Some(StageAt(q, name, w).fate))))
  }

  function Finished(q: Queue, name: string, w: nat): Queue
    requires Linked(q) && AtStage(q, name, w) && (StageAt(q, name, w).Engine? || StageAt(q, name, w).Ending?)
  {
    var id := HeldAt(q, name, w);
    Setting(Finish(q, id, StageAt(q, name, w).outcome), name, w, Busy(id, Closing))
  }

  function Released(q: Queue, name: string, w: nat): Queue
    requires AtStage(q, name, w)
  {
    var id := JobAt(q, name, w);
    Setting(q.(timers := q.timers + {BufferTimer(id), RecordTimer(id)}), name, w, Idle)
  }

  function Read(q: Queue, id: JobId, a: Action): Queue
    requires id in q.streams && Runnable(q.streams[id], a) && |q.streams[id].buffer| <= |q.streams[id].published|
  {
    q.(streams := q.streams[id := Apply(q.streams[id], a)])
  }

  /** A step of the queue. */
  function Next(q: Queue, s: Step): Queue
    requires Enabled(q, s) && Linked(q)
  {
    match s
    case Start => Started(q)
    case MakesDefaultLane => EnsureLane(q, DEFAULT_LANE)
    case Submits(name, id, request) => Submit(q, name, id, request)
    case Dequeues(name, w) =>
      assert LaneLinked(q, q.lanes[name]);
      Dequeue(q, name, w)
    case Publishes(name, w, e) => Published(q, name, w, e)
    case Raises(name, w, timedOut) => Raised(q, name, w, timedOut)
    case PublishesError(name, w, e) => PublishedError(q, name, w, e)
    case Finishes(name, w) => Finished(q, name, w)
    case Releases(name, w) => Released(q, name, w)
    case BufferExpires(id) => DropBuffer(q, id)
    case RecordExpires(id) => DropRecord(q, id)
    case Reads(id, a) => Read(q, id, a)
    case Stop => q.(life := Stopping, timers := {})
    case SweepsUp => Sweep(q)
  }

  /** The job a worker has in hand; its record and stream are there. */
  function HeldAt(q: Queue, name: string, w: nat): (id: JobId)
    requires Linked(q) && AtStage(q, name, w)
    ensures id == JobAt(q, name, w) && id in q.registry.records && id in q.streams
  {
    assert LaneLinked(q, q.lanes[name]) && InHand(q, q.lanes[name].workers[w]);
    JobAt(q, name, w)
  }

  // ------------------------------------------------------------------ invariant

  predicate QueuedAt(q: Queue, name: string, id: JobId, i: nat) {
    id in q.registry.records && q.registry.records[id].lane == name && q.registry.records[id].state == Queued
    && q.registry.records[id].position == Some(i + 1)
  }

  /** A busy worker's job is its lane's, running until it is closing, and on no timer. */
  predicate Holds(q: Queue, name: string, worker: Worker) {
    worker.Busy? ==>
      && worker.job in q.registry.records && q.registry.records[worker.job].lane == name
      && q.registry.records[worker.job].state == (if worker.stage.Closing? then Terminal else Running)
      && BufferTimer(worker.job) !in q.timers && RecordTimer(worker.job) !in q.timers
  }

  predicate HeldIn(workers: seq<Worker>, id: JobId) {
    exists w :: 0 <= w < |workers| && workers[w].Busy? && workers[w].job == id
  }

  predicate HoldApart(workers: seq<Worker>) {
    forall v, w :: 0 <= v < w < |workers| && workers[v].Busy? && workers[w].Busy? ==> workers[v].job != workers[w].job
  }

  /** A lane's two lists agree, and each of its jobs waits at its own position. */
  predicate WaitingOk(q: Queue, name: string)
    requires name in q.lanes
  {
    var lane := q.lanes[name];
    && lane.pending == lane.fifo && Distinct(lane.fifo)
    && (forall i :: 0 <= i < |lane.fifo| ==> QueuedAt(q, name, lane.fifo[i], i))
  }

  /** A lane has its workers, each with a job of its own. */
  predicate WorkersOk(q: Queue, name: string)
    requires name in q.lanes
  {
    var lane := q.lanes[name];
    && |lane.workers| == q.cfg.workersPerLane && HoldApart(lane.workers)
    && (forall w :: 0 <= w < |lane.workers| ==> Holds(q, name, lane.workers[w]))
  }

  /** A lane's jobs start in the order they came; it keeps its lists and its workers until the sweep. */
  predicate LaneOk(q: Queue, name: string)
    requires name in q.lanes
  {
    var lane := q.lanes[name];
    && q.life != Fresh && lane.accepted == lane.started + lane.fifo
    && if q.life == Swept then lane.workers == [] && lane.pending == [] else WaitingOk(q, name) && WorkersOk(q, name)
  }

  /** A record, its request, its stream and its place in a lane say the same of a job. */
  predicate JobOk(q: Queue, id: JobId)
    requires id in q.registry.records
  {
    var r := q.registry.records[id];
    && r.lane in q.lanes && id in q.streams
    && (r.position.Some? <==> r.state == Queued)
    && (r.outcome.Some? ==> r.state == Terminal)
    && (r.state == Queued ==> q.life != Swept && id in q.lanes[r.lane].fifo)
    && (r.state == Running ==> q.life != Swept && HeldIn(q.lanes[r.lane].workers, id))
    && (BufferTimer(id) in q.timers || RecordTimer(id) in q.timers ==> r.state == Terminal)
    && (q.streams[id].closed <==> r.state == Terminal)
    && (r.truncated <==> q.streams[id].buffer != q.streams[id].published)
  }

  predicate LanesOk(q: Queue) {
    forall name :: name in q.lanes ==> LaneOk(q, name)
  }

  predicate JobsOk(q: Queue) {
    forall id :: id in q.registry.records ==> JobOk(q, id)
  }

  /** Every stream ever made is sound, and one the queue has let go of is closed. */
  predicate StreamsOk(q: Queue) {
    forall id :: id in q.streams ==>
      StreamOk(q.streams[id]) && q.streams[id].capacity == q.cfg.capacity && (id !in q.live ==> q.streams[id].closed)
  }

  /** The requests are the queued jobs', the live streams the records', and timers run only while the queue serves. */
  ghost predicate TablesOk(q: Queue) {
    && q.live == q.registry.records.Keys
    && (q.life != Swept ==>
          forall id :: id in q.requests <==> id in q.registry.records && q.registry.records[id].state == Queued)
    && (q.life != Serving ==> q.timers == {})
    && (forall id :: BufferTimer(id) in q.timers ==> id in q.streams)
    && (forall id :: RecordTimer(id) in q.timers ==> id in q.streams)
  }

  /** The registry lists its records in the order they were submitted. */
  ghost predicate OrderOk(q: Queue) {
    && RegistryOk(q.registry) && q.registry.order == Kept(q.submitted, q.registry.records.Keys)
    && Distinct(q.submitted) && (forall id :: id in q.submitted <==> id in q.streams)
  }

  ghost predicate Inv(q: Queue) {
    LanesOk(q) && JobsOk(q) && StreamsOk(q) && TablesOk(q) && OrderOk(q)
  }
}
