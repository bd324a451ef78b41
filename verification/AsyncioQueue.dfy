/**
 The queue as the object the service holds: one method for each step between suspensions,
 each tied to a step of the transition system.
 */
module AsyncioQueue {
  import opened Options
  import S = JobStreams
  import opened JobRegistry
  import opened JobQueue

  datatype Submitted = Accepted(record: Record) | QueueFull

  class AsyncioJobQueue {
    const cfg: Settings
    const registry: InMemoryJobRegistry
    var lanes: map<string, Lane>
    var requests: map<JobId, Submission>
    var streams: map<JobId, S.Stream>
    var evictions: set<Timer>
    var accepting: bool
    ghost var life: Life
    ghost var submitted: seq<JobId>
    // Every stream, with those dropped from the table that readers may still hold.
    ghost var made: map<JobId, S.Stream>

    ghost predicate Valid()
      reads this
    {
      (accepting <==> life == Serving) && (forall id :: id in streams ==> id in made && made[id] == streams[id])
    }

    ghost function View(): Queue
      reads this, registry
    {
      Queue(cfg, life, lanes, registry.View(), requests, made, streams.Keys, evictions, submitted)
    }

    constructor (cfg: Settings, registry: InMemoryJobRegistry)
      requires registry.View() == EMPTY
      ensures Valid() && View() == Unstarted(cfg) && this.registry == registry
    {
      this.cfg, this.registry := cfg, registry;
      lanes, requests, streams, evictions, accepting := map[], map[], map[], {}, false;
      life, submitted, made := Fresh, [], map[];
    }

    method EnsureLaneOf(name: string)
      requires Valid()
      modifies this`lanes
      ensures Valid() && View() == EnsureLane(old(View()), name)
    {
      if name !in lanes {
        var workers: seq<Worker> := [];
        for i := 0 to cfg.workersPerLane
          invariant workers == seq(i, j => Idle)
        {
          workers := workers + [Idle];
        }
        lanes := lanes[name := Lane([], [], workers, [], [])];
      }
    }

    /** Open for submissions; a queue of more than one worker may suspend after it. */
    method Open()
      requires Valid() && Enabled(View(), Start)
      modifies this`accepting, this`life
      ensures Valid() && View() == Started(old(View()))
    {
      accepting, life := true, Serving;
    }

    method MakeDefaultLane()
      requires Valid()
      modifies this`lanes
      ensures Valid() && View() == EnsureLane(old(View()), DEFAULT_LANE)
    {
      EnsureLaneOf(DEFAULT_LANE);
    }

    /** Enqueue one submission on a lane that has room. */
    method Admit(name: string, id: JobId, request: Submission, record: Record)
      requires Valid() && name in lanes
      requires record == Record(name, Queued, Some(|lanes[name].pending| + 1), request.scope, None, false)
      modifies this`lanes, this`requests, this`streams, this`made, this`submitted, registry
      ensures Valid() && View() == Enqueue(old(View()), name, id, request)
    {
      var lane := lanes[name];
      lanes := lanes[name :=
        Lane(lane.fifo + [id], lane.pending + [id], lane.workers, lane.accepted + [id], lane.started)];
      registry.AddRecord(id, record);
      requests := requests[id := request];
      streams, made := streams[id := S.Opened(cfg.capacity)], made[id := S.Opened(cfg.capacity)];
      submitted := submitted + [id];
    }

    method SubmitJob(name: string, id: JobId, request: Submission) returns (r: Submitted)
      requires Valid() && id !in View().streams
      modifies this`lanes, this`requests, this`streams, this`made, this`submitted, registry
      ensures Valid() && View() == Submit(old(View()), name, id, request)
      ensures r == QueueFull <==> Refuses(old(View()), name)
      ensures r.Accepted? ==> id in registry.records && r.record == registry.records[id]
    {
      if !accepting {
        return QueueFull;
      }
      EnsureLaneOf(name);
      var lane := lanes[name];
      var record := Record(name, Queued, Some(|lane.pending| + 1), request.scope, None, false);
      if cfg.maxDepth > 0 && |lane.fifo| >= cfg.maxDepth {
        return QueueFull;
      }
      Admit(name, id, request, record);
      r := Accepted(record);
    }

    /** Renumber a lane's waiting jobs from one, in a single pass over them. */
    method Reindex(pending: seq<JobId>)
      requires Valid() && Distinct(pending) && (forall id :: id in pending ==> id in registry.records)
      modifies registry`records
      ensures Valid() && registry.order == old(registry.order)
      ensures registry.records == Reindexed(old(registry.records), pending)
    {
      ghost var before := registry.records;
      for i := 0 to |pending|
        invariant registry.order == old(registry.order)
        invariant registry.records.Keys == before.Keys
        invariant forall id :: id in before ==>
          registry.records[id] == if id in pending[..i] then Renumbered(before[id], id, pending) else before[id]
      {
        var id := pending[i];
        IndexIsUnique(pending, i);
        if id in registry.records && registry.records[id].state == Queued {
          registry.AmendRecord(id, registry.records[id].(position := Some(i + 1)));
        }
      }
      assert pending[..|pending|] == pending;
    }

    /** A worker's queue read and the start of its job, with nothing in between. */
    method StartJob(name: string, w: nat) returns (id: JobId, request: Submission)
      requires Valid() && WorkerAt(View(), name, w) && HeadReady(View(), name)
      modifies this`lanes, this`requests, registry`records
      ensures Valid() && View() == Dequeue(old(View()), name, w)
      ensures id == old(lanes[name].fifo[0]) && id in old(requests) && request == old(requests)[id]
    {
      var lane := lanes[name];
      id := lane.fifo[0];
      var pending := lane.pending;
      if id in pending {
        pending := Without(pending, id);
      }
      var workers := lane.workers[w := Busy(id, Engine(None))];
      lanes := lanes[name := Lane(lane.fifo[1..], pending, workers, lane.accepted, lane.started + [id])];
      Reindex(pending);
      registry.AmendRecord(id, registry.records[id].(state := Running, position := None));
      request := requests[id];
      requests := requests - {id};
    }

    /** The stage of one worker's job. */
    method SetWorker(name: string, w: nat, worker: Worker)
      requires Valid() && name in lanes && w < |lanes[name].workers|
      modifies this`lanes
      ensures Valid() && View() == Setting(old(View()), name, w, worker)
    {
      lanes := lanes[name := lanes[name].(workers := lanes[name].workers[w := worker])];
    }

    method PublishOn(id: JobId, event: S.Event) returns (dropped: bool)
      requires id in streams && |streams[id].buffer| <= |streams[id].published|
      modifies this`streams, this`made
      ensures streams == old(streams)[id := S.Apply(old(streams)[id], S.Publish(event))]
      ensures made == old(made)[id := S.Apply(old(streams)[id], S.Publish(event))]
      ensures dropped == (|old(streams)[id].buffer| == old(streams)[id].capacity)
    {
      var stream := streams[id];
      dropped := |stream.buffer| == stream.capacity;
      streams, made := streams[id := S.Apply(stream, S.Publish(event))], made[id := S.Apply(stream, S.Publish(event))];
    }

    /** A frame reaches a job's stream, and the record says so the first time one is pushed out. */
    method PublishFrame(id: JobId, event: S.Event)
      requires Valid() && OnTheTable(View(), id)
      modifies this`streams, this`made, registry`records
      ensures Valid() && View() == PublishTo(old(View()), id, event)
    {
      ghost var before := View();
      var dropped := PublishOn(id, event);
      PublishToCases(before, id, event);
      assert View() == StreamMoved(before, id, event);
      if !dropped {
        return;
      }
      if registry.records[id].truncated {
        return;
      }
      registry.AmendRecord(id, registry.records[id].(truncated := true));
    }

    /** The run hands over a frame; a terminal one names the outcome. */
    method OnEvent(name: string, w: nat, event: S.Event)
      requires Valid() && Linked(View()) && Enabled(View(), Publishes(name, w, event))
      requires OnTheTable(View(), JobAt(View(), name, w))
      modifies this`streams, this`made, this`lanes, registry`records
      ensures Valid() && View() == Published(old(View()), name, w, event)
    {
      var worker := lanes[name].workers[w];
      PublishFrame(worker.job, event);
      var outcome := if event.terminal.Some? then event.terminal else worker.stage.outcome;
      SetWorker(name, w, Busy(worker.job, Engine(outcome)));
    }

    method OnRaise(name: string, w: nat, timedOut: bool)
      requires Valid() && Enabled(View(), Raises(name, w, timedOut))
      modifies this`lanes
      ensures Valid() && View() == Raised(old(View()), name, w, timedOut)
    {
      SetWorker(name, w, Busy(lanes[name].workers[w].job, Failing(if timedOut then S.JobTimedOut else S.EngineError)));
    }

    method OnErrorFrame(name: string, w: nat, event: S.Event)
      requires Valid() && Linked(View()) && Enabled(View(), PublishesError(name, w, event))
      requires OnTheTable(View(), JobAt(View(), name, w))
      modifies this`streams, this`made, this`lanes, registry`records
      ensures Valid() && View() == PublishedError(old(View()), name, w, event)
    {
      var worker := lanes[name].workers[w];
      PublishFrame(worker.job, event);
      SetWorker(name, w, Busy(worker.job, Ending(Some(worker.stage.fate))));
    }

    /** The record turns terminal and the stream closes, with nothing in between. */
    method FinishJob(name: string, w: nat)
      requires Valid() && Linked(View()) && Enabled(View(), Finishes(name, w))
      requires OnTheTable(View(), JobAt(View(), name, w))
      modifies this`streams, this`made, this`lanes, registry`records
      ensures Valid() && View() == Finished(old(View()), name, w)
    {
      var worker := lanes[name].workers[w];
      var id := worker.job;
      var record := registry.records[id];
      registry.AmendRecord(id, record.(state := Terminal, position := None, outcome := worker.stage.outcome));
      streams, made := streams[id := S.Apply(streams[id], S.Close)], made[id := S.Apply(streams[id], S.Close)];
      SetWorker(name, w, Busy(id, Closing));
    }

    method ScheduleEvictions(name: string, w: nat)
      requires Valid() && Enabled(View(), Releases(name, w))
      modifies this`evictions, this`lanes
      ensures Valid() && View() == Released(old(View()), name, w)
    {
      var id := lanes[name].workers[w].job;
      evictions := evictions + {BufferTimer(id), RecordTimer(id)};
      SetWorker(name, w, Idle);
    }

    method DropBufferLater(id: JobId)
      requires Valid() && (id in streams ==> OnTheTable(View(), id))
      modifies this`evictions, this`streams, this`made, registry`records
      ensures Valid() && View() == DropBuffer(old(View()), id)
    {
      evictions := evictions - {BufferTimer(id)};
      if id !in streams {
        return;
      }
      var dropped := |streams[id].buffer|;
      streams, made := streams[id := S.Apply(streams[id], S.Discard)], made[id := S.Apply(streams[id], S.Discard)];
      if dropped == 0 {
        return;
      }
      if id in registry.records && !registry.records[id].truncated {
        registry.AmendRecord(id, registry.records[id].(truncated := true));
      }
    }

    method DropRecordLater(id: JobId)
      requires Valid() && RegistryOk(registry.View())
      modifies this`evictions, this`streams, registry
      ensures Valid() && View() == DropRecord(old(View()), id)
    {
      evictions := evictions - {RecordTimer(id)};
      registry.ForgetRecord(id);
      streams := streams - {id};
      assert streams.Keys == old(streams.Keys) - {id};
    }

    /** Attach a reader to a job's stream; a job the table does not hold is unknown. */
    method AttachReader(id: JobId) returns (known: bool)
      requires Valid() && Bounded(streams)
      modifies this`streams, this`made
      ensures Valid() && known == (id in old(View()).live)
      ensures known ==>
        View() == old(View()).(streams := old(View()).streams[id := S.Apply(old(streams)[id], S.Action.Attach)])
      ensures !known ==> View() == old(View())
    {
      known := id in streams;
      if known {
        var stream := S.Apply(streams[id], S.Action.Attach);
        streams, made := streams[id := stream], made[id := stream];
      }
    }

    method BeginStop()
      requires Valid() && Enabled(View(), Stop)
      modifies this`accepting, this`life, this`evictions
      ensures Valid() && View() == old(View()).(life := Stopping, timers := {})
    {
      accepting, life, evictions := false, Stopping, {};
    }

    /** One record the stop found open: abandoned, and its stream closed if the table still has it. */
    method AbandonJob(id: JobId)
      requires id in registry.records && Bounded(streams)
      modifies this`streams, registry`records
      ensures registry.records == old(registry.records)[id :=
                old(registry.records)[id].(state := Terminal, position := None, outcome := Some(S.ShutdownAbandoned))]
      ensures streams ==
        if id in old(streams) then old(streams)[id := S.Apply(old(streams)[id], S.Close)] else old(streams)
    {
      var record := registry.records[id];
      registry.AmendRecord(id, record.(state := Terminal, position := None, outcome := Some(S.ShutdownAbandoned)));
      if id in streams {
        streams := streams[id := S.Apply(streams[id], S.Close)];
      }
    }

    /** Abandon every open record in turn. */
    method AbandonOpen()
      requires RegistryOk(registry.View()) && Bounded(streams)
      modifies this`streams, registry`records
      ensures registry.records == AbandonedAll(old(registry.records), OpenIds(old(registry.records)))
      ensures streams == ClosedAll(old(streams), OpenIds(old(registry.records)))
    {
      ghost var records, table := registry.records, streams;
      var found := registry.Open(None);
      FoundAreOpen(registry.View(), found);
      NoneAbandoned(records, table);
      for i := 0 to |found|
        invariant registry.records == AbandonedAll(records, Ids(found[..i]))
        invariant streams == ClosedAll(table, Ids(found[..i]))
      {
        NextFound(found, i);
        OneMoreAbandoned(records, table, Ids(found[..i]), found[i]);
        AbandonJob(found[i]);
      }
      AllFound(found, records);
    }

    /** Every lane loses its tasks and its arrivals. */
    method ClearLanes()
      modifies this`lanes
      ensures lanes == Cleared(old(lanes))
    {
      lanes := map name | name in lanes :: lanes[name].(workers := [], pending := []);
    }

    /** What is left of a stop once every worker has been cancelled. */
    method SweepUp()
      requires Valid() && life == Stopping && RegistryOk(registry.View()) && Buffered(View())
      modifies this`lanes, this`streams, this`made, this`life, registry`records
      ensures Valid() && View() == Sweep(old(View()))
    {
      ghost var before, table := View(), streams;
      TableIsBounded(before, table);
      ClearLanes();
      AbandonOpen();
      life, made := Swept, made + streams;
      SweepIs(before, table, View());
    }
  }

  predicate Bounded(table: map<JobId, S.Stream>) {
    forall id :: id in table ==> |table[id].buffer| <= |table[id].published|
  }

  ghost function OpenIds(records: map<JobId, Record>): set<JobId> {
    set id | id in records && records[id].state != Terminal
  }

  /** The records once some of the open ones are abandoned. */
  ghost function AbandonedAll(records: map<JobId, Record>, ids: set<JobId>): map<JobId, Record> {
    map id | id in records :: if id in ids then AbandonedRecord(records[id]) else records[id]
  }

  /** The streams once those of some jobs are closed. */
  ghost function ClosedAll(table: map<JobId, S.Stream>, ids: set<JobId>): map<JobId, S.Stream>
    requires Bounded(table)
  {
    map id | id in table :: if id in ids then S.Apply(table[id], S.Close) else table[id]
  }

  lemma OneMoreAbandoned(records: map<JobId, Record>, table: map<JobId, S.Stream>, ids: set<JobId>, id: JobId)
    requires Bounded(table) && id in records && id !in ids && records[id].state != Terminal
    ensures AbandonedAll(records, ids)[id] == records[id] && Bounded(ClosedAll(table, ids))
    ensures AbandonedAll(records, ids + {id}) == AbandonedAll(records, ids)[id :=
              records[id].(state := Terminal, position := None, outcome := Some(S.ShutdownAbandoned))]
    ensures ClosedAll(table, ids + {id}) ==
            (if id in table then ClosedAll(table, ids)[id := S.Apply(table[id], S.Close)] else ClosedAll(table, ids))
  {
  }

  ghost function Ids(found: seq<JobId>): set<JobId> {
    set id | id in found
  }

  lemma NoneAbandoned(records: map<JobId, Record>, table: map<JobId, S.Stream>)
    requires Bounded(table)
    ensures AbandonedAll(records, {}) == records && ClosedAll(table, {}) == table
    ensures Ids([]) == {}
  {
  }

  lemma NextFound(found: seq<JobId>, i: nat)
    requires Distinct(found) && i < |found|
    ensures found[i] !in Ids(found[..i]) && found[i] in found
    ensures Ids(found[..i + 1]) == Ids(found[..i]) + {found[i]}
  {
    assert found[..i + 1] == found[..i] + [found[i]];
  }

  lemma AllFound(found: seq<JobId>, records: map<JobId, Record>)
    requires forall id :: id in found <==> id in OpenIds(records)
    ensures Ids(found[..|found|]) == OpenIds(records)
  {
    assert found[..|found|] == found;
  }

  lemma FoundAreOpen(g: Registry, found: seq<JobId>)
    requires RegistryOk(g) && found == OpenJobs(g, None)
    ensures Distinct(found) && (forall id :: id in found <==> id in OpenIds(g.records))
  {
    var wanted := set id | id in g.records && IsOpen(g.records[id], None);
    KeptMembers(g.order, wanted);
    KeptDistinct(g.order, wanted);
  }

  function Cleared(lanes: map<string, Lane>): map<string, Lane> {
    map name | name in lanes :: lanes[name].(workers := [], pending := [])
  }

  /** The table holds some of the streams a queue has made. */
  predicate TableOf(q: Queue, table: map<JobId, S.Stream>) {
    q.live == table.Keys && forall id :: id in table ==> id in q.streams && q.streams[id] == table[id]
  }

  lemma TableIsBounded(q: Queue, table: map<JobId, S.Stream>)
    requires Buffered(q) && TableOf(q, table)
    ensures Bounded(table)
  {
  }

  lemma SweepIs(q: Queue, table: map<JobId, S.Stream>, q': Queue)
    requires Buffered(q) && TableOf(q, table) && Bounded(table)
    requires q'.registry == q.registry.(records := AbandonedAll(q.registry.records, OpenIds(q.registry.records)))
    requires q'.streams == q.streams + ClosedAll(table, OpenIds(q.registry.records))
    requires q' == q.(life := Swept, lanes := Cleared(q.lanes), registry := q'.registry, streams := q'.streams)
    ensures q' == Sweep(q)
  {
    SweptStreamsAre(q, table);
    SweptRecordsAre(q.registry.records);
  }

  lemma SweptStreamsAre(q: Queue, table: map<JobId, S.Stream>)
    requires Buffered(q) && TableOf(q, table) && Bounded(table)
    ensures q.streams + ClosedAll(table, OpenIds(q.registry.records)) == map id | id in q.streams :: SweptStream(q, id)
  {
  }

  lemma SweptRecordsAre(records: map<JobId, Record>)
    ensures AbandonedAll(records, OpenIds(records)) == map id | id in records :: AbandonedRecord(records[id])
  {
  }

  /** A job's record and stream are both held. */
  predicate OnTheTable(q: Queue, id: JobId) {
    && id in q.live && id in q.registry.records && id in q.streams
    && |q.streams[id].buffer| <= |q.streams[id].published|
  }

  /** What the start of a job relies on: its lane's lists agree, and its record and request are held. */
  predicate HeadReady(q: Queue, name: string) {
    name in q.lanes && var lane := q.lanes[name];
      && lane.fifo != [] && lane.fifo[0] in lane.pending && Distinct(Without(lane.pending, lane.fifo[0]))
      && lane.fifo[0] in q.requests && lane.fifo[0] in q.registry.records
      && (forall id :: id in Without(lane.pending, lane.fifo[0]) ==> id in q.registry.records)
  }

  function StreamMoved(q: Queue, id: JobId, event: S.Event): Queue
    requires OnTheTable(q, id)
  {
    q.(streams := q.streams[id := S.Apply(q.streams[id], S.Publish(event))])
  }

  lemma PublishToCases(q: Queue, id: JobId, event: S.Event)
    requires OnTheTable(q, id)
    ensures PublishTo(q, id, event) ==
      if |q.streams[id].buffer| == q.streams[id].capacity && !q.registry.records[id].truncated
      then Amended(StreamMoved(q, id, event), id, q.registry.records[id].(truncated := true))
      else StreamMoved(q, id, event)
  {
  }

  lemma HeadIsReady(q: Queue, name: string)
    requires LanesOk(q) && TablesOk(q) && q.life == Serving && name in q.lanes && q.lanes[name].fifo != []
    ensures HeadReady(q, name)
  {
    var lane := q.lanes[name];
    assert LaneOk(q, name);
    assert Without(lane.pending, lane.fifo[0]) == lane.fifo[1..];
    assert QueuedAt(q, name, lane.fifo[0], 0);
    forall id | id in lane.fifo[1..] ensures id in q.registry.records {
      var i :| 0 < i < |lane.fifo| && lane.fifo[i] == id;
      assert QueuedAt(q, name, id, i);
    }
  }

  lemma WorkersJobIsOnTheTable(q: Queue, name: string, w: nat)
    requires LanesOk(q) && JobsOk(q) && StreamsOk(q) && q.live == q.registry.records.Keys && AtStage(q, name, w)
    ensures OnTheTable(q, JobAt(q, name, w))
  {
    assert LaneOk(q, name) && Holds(q, name, q.lanes[name].workers[w]);
    assert JobOk(q, JobAt(q, name, w));
    assert S.StreamOk(q.streams[JobAt(q, name, w)]);
  }

  /** Under the invariant every step's method finds what it looks up: none of them can fail. */
  lemma InvariantIsEnough(q: Queue)
    requires Inv(q) && q.life == Serving
    ensures forall name, w: nat :: AtStage(q, name, w) ==> OnTheTable(q, JobAt(q, name, w))
    ensures forall name :: name in q.lanes && q.lanes[name].fifo != [] ==> HeadReady(q, name)
  {
    forall name, w: nat | AtStage(q, name, w) ensures OnTheTable(q, JobAt(q, name, w)) {
      WorkersJobIsOnTheTable(q, name, w);
    }
    forall name | name in q.lanes && q.lanes[name].fifo != [] ensures HeadReady(q, name) {
      HeadIsReady(q, name);
    }
  }
}
