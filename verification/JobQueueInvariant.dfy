/** Every step of the queue keeps its five structures in step. */
module JobQueueInvariant {
  import opened Options
  import S = JobStreams
  import opened JobRegistry
  import opened JobQueue

  /** Under the invariant no lookup of a step can fail. */
  lemma InvariantLinks(q: Queue)
    requires LanesOk(q) && JobsOk(q) && StreamsOk(q) && q.live == q.registry.records.Keys
    ensures Linked(q)
  {
    forall id | id in q.streams ensures |q.streams[id].buffer| <= |q.streams[id].published| {
      assert S.StreamOk(q.streams[id]);
    }
    if q.life == Serving {
      forall name | name in q.lanes ensures LaneLinked(q, q.lanes[name]) {
        LaneLinks(q, name);
      }
    }
  }

  lemma LaneLinks(q: Queue, name: string)
    requires name in q.lanes && LaneOk(q, name) && JobsOk(q) && q.life == Serving
    ensures LaneLinked(q, q.lanes[name])
  {
    var lane := q.lanes[name];
    forall id | id in lane.fifo ensures id in q.registry.records {
      var i :| 0 <= i < |lane.fifo| && lane.fifo[i] == id;
      assert QueuedAt(q, name, lane.fifo[i], i);
    }
    forall w | 0 <= w < |lane.workers| ensures InHand(q, lane.workers[w]) {
      assert Holds(q, name, lane.workers[w]);
      assert lane.workers[w].Busy? ==> JobOk(q, lane.workers[w].job);
    }
  }

  // ---------------------------------------------------------------------- frames

  /** A lane is using a job that waits in it or is in a worker's hands. */
  predicate Uses(lane: Lane, id: JobId) {
    id in lane.fifo || HeldIn(lane.workers, id)
  }

  /** Nothing a lane relies on about a job has changed. */
  predicate SameUse(q: Queue, q': Queue, id: JobId)
    requires id in q.registry.records
  {
    && id in q'.registry.records
    && q'.registry.records[id].lane == q.registry.records[id].lane
    && q'.registry.records[id].state == q.registry.records[id].state
    && q'.registry.records[id].position == q.registry.records[id].position
    && (BufferTimer(id) in q'.timers ==> BufferTimer(id) in q.timers)
    && (RecordTimer(id) in q'.timers ==> RecordTimer(id) in q.timers)
  }

  predicate Working(q: Queue) {
    q.life == Serving || q.life == Stopping
  }

  lemma UsesOwn(q: Queue, name: string, id: JobId)
    requires name in q.lanes && LaneOk(q, name) && Working(q) && Uses(q.lanes[name], id)
    ensures id in q.registry.records && q.registry.records[id].lane == name
    ensures BufferTimer(id) in q.timers || RecordTimer(id) in q.timers ==> q.registry.records[id].state == Queued
  {
    var lane := q.lanes[name];
    if id in lane.fifo {
      var i :| 0 <= i < |lane.fifo| && lane.fifo[i] == id;
      assert QueuedAt(q, name, lane.fifo[i], i);
    } else {
      var w :| 0 <= w < |lane.workers| && lane.workers[w].Busy? && lane.workers[w].job == id;
      assert Holds(q, name, lane.workers[w]);
    }
  }

  /** Giving one worker something else takes no other worker's job from it. */
  lemma HeldElsewhere(workers: seq<Worker>, w: nat, worker: Worker, id: JobId)
    requires w < |workers| && HeldIn(workers, id)
    requires workers[w].Busy? && workers[w].job == id ==> worker.Busy? && worker.job == id
    ensures HeldIn(workers[w := worker], id)
  {
    var v :| 0 <= v < |workers| && workers[v].Busy? && workers[v].job == id;
    assert workers[w := worker][v].Busy? && workers[w := worker][v].job == id;
  }

  /** A lane whose jobs are left as they were is left as it was. */
  lemma LaneFramed(q: Queue, q': Queue, name: string)
    requires name in q.lanes && name in q'.lanes && q'.lanes[name] == q.lanes[name] && LaneOk(q, name)
    requires Working(q) && Working(q') && q'.cfg == q.cfg
    requires forall id ::
      id in q.registry.records && q.registry.records[id].lane == name && Uses(q.lanes[name], id) ==> SameUse(q, q', id)
    ensures LaneOk(q', name)
  {
    var lane := q.lanes[name];
    forall i | 0 <= i < |lane.fifo| ensures QueuedAt(q', name, lane.fifo[i], i) {
      assert QueuedAt(q, name, lane.fifo[i], i);
      assert Uses(lane, lane.fifo[i]);
    }
    forall w | 0 <= w < |lane.workers| ensures Holds(q', name, lane.workers[w]) {
      assert Holds(q, name, lane.workers[w]);
      assert lane.workers[w].Busy? ==> Uses(lane, lane.workers[w].job);
    }
  }

  /** A job whose record and stream read the same, in a lane that still has it, is left as it was. */
  lemma JobFramed(q: Queue, q': Queue, id: JobId)
    requires id in q.registry.records && id in q'.registry.records && JobOk(q, id)
    requires q'.registry.records[id].(position := None) == q.registry.records[id].(position := None)
    requires q'.registry.records[id].position.Some? == q.registry.records[id].position.Some?
    requires id in q'.streams && q'.streams[id].(readers := []) == q.streams[id].(readers := [])
    requires (q.life != Swept ==> q'.life != Swept)
    requires BufferTimer(id) in q'.timers || RecordTimer(id) in q'.timers ==>
      BufferTimer(id) in q.timers || RecordTimer(id) in q.timers
    requires var name := q.registry.records[id].lane;
      && name in q'.lanes && (id in q.lanes[name].fifo ==> id in q'.lanes[name].fifo)
      && (HeldIn(q.lanes[name].workers, id) ==> HeldIn(q'.lanes[name].workers, id))
    ensures JobOk(q', id)
  {
  }

  // -------------------------------------------------------- lifecycle and readers

  lemma UnstartedHolds(cfg: Settings)
    ensures Inv(Unstarted(cfg))
  {
  }

  /** A lane just made is sound, and so is the rest beside it. */
  lemma EnsuredLanes(q: Queue, name: string)
    requires LanesOk(q) && q.life == Serving
    ensures LanesOk(EnsureLane(q, name))
  {
    var q' := EnsureLane(q, name);
    forall n | n in q'.lanes ensures LaneOk(q', n) {
      if n in q.lanes {
        LaneFramed(q, q', n);
      } else {
        assert q'.lanes[n] == NewLane(q.cfg);
      }
    }
  }

  lemma EnsuredJobs(q: Queue, name: string)
    requires JobsOk(q)
    ensures JobsOk(EnsureLane(q, name))
  {
    forall id | id in q.registry.records ensures JobOk(EnsureLane(q, name), id) {
      JobFramed(q, EnsureLane(q, name), id);
    }
  }

  lemma StartKeeps(q: Queue)
    requires Inv(q) && q.life == Fresh
    ensures Inv(Started(q))
  {
    assert forall name :: name in q.lanes ==> LaneOk(q, name);
    assert q.lanes == map[];
    assert forall id :: id in q.registry.records ==> JobOk(q, id);
  }

  lemma StopLanes(q: Queue)
    requires LanesOk(q) && (q.life == Fresh || q.life == Serving)
    ensures LanesOk(q.(life := Stopping, timers := {}))
  {
    var q' := q.(life := Stopping, timers := {});
    forall n | n in q'.lanes ensures LaneOk(q', n) {
      assert LaneOk(q, n);
      LaneFramed(q, q', n);
    }
  }

  lemma StopJobs(q: Queue)
    requires JobsOk(q) && (q.life == Fresh || q.life == Serving)
    ensures JobsOk(q.(life := Stopping, timers := {}))
  {
    forall id | id in q.registry.records ensures JobOk(q.(life := Stopping, timers := {}), id) {
      JobFramed(q, q.(life := Stopping, timers := {}), id);
    }
  }

  lemma ReadLanes(q: Queue, id: JobId, s: S.Stream)
    requires LanesOk(q)
    ensures LanesOk(q.(streams := q.streams[id := s]))
  {
    var q' := q.(streams := q.streams[id := s]);
    forall n | n in q'.lanes ensures LaneOk(q', n) {
      if Working(q) {
        LaneFramed(q, q', n);
      } else {
        assert LaneOk(q, n);
      }
    }
  }

  lemma ReadJobs(q: Queue, id: JobId, a: S.Action)
    requires JobsOk(q) && id in q.streams && S.IsReading(a) && S.Runnable(q.streams[id], a)
    requires |q.streams[id].buffer| <= |q.streams[id].published|
    ensures JobsOk(Read(q, id, a))
  {
    S.ReadingStands(q.streams[id], a);
    forall j | j in q.registry.records ensures JobOk(Read(q, id, a), j) {
      JobFramed(q, Read(q, id, a), j);
    }
  }

  /** One stream is replaced by a sound one. */
  lemma StreamReplaced(q: Queue, q': Queue, id: JobId, s: S.Stream)
    requires StreamsOk(q) && S.StreamOk(s) && s.capacity == q.cfg.capacity && q'.cfg == q.cfg && q'.live == q.live
    requires q'.streams == q.streams[id := s] && (id !in q.live ==> s.closed)
    ensures StreamsOk(q')
  {
  }

  lemma ReadStreams(q: Queue, id: JobId, a: S.Action)
    requires StreamsOk(q) && id in q.streams && S.IsReading(a) && S.Runnable(q.streams[id], a)
    requires |q.streams[id].buffer| <= |q.streams[id].published|
    ensures StreamsOk(Read(q, id, a))
  {
    var s := q.streams[id];
    S.StepKeeps(s, a);
    S.ReadingStands(s, a);
    StreamReplaced(q, Read(q, id, a), id, S.Apply(s, a));
  }

  lemma ReadKeeps(q: Queue, id: JobId, a: S.Action)
    requires Enabled(q, Reads(id, a)) && Linked(q) && Inv(q)
    ensures Inv(Next(q, Reads(id, a)))
  {
    ReadLanes(q, id, S.Apply(q.streams[id], a));
    ReadJobs(q, id, a);
    ReadStreams(q, id, a);
  }

  // ------------------------------------------------------------------- publishing

  /** A worker moves on within the job it has in hand. */
  lemma StageKeeps(q: Queue, name: string, w: nat, stage: Stage)
    requires Inv(q) && AtStage(q, name, w) && !StageAt(q, name, w).Closing? && !stage.Closing?
    ensures Inv(Setting(q, name, w, Busy(JobAt(q, name, w), stage)))
  {
    StageLanes(q, name, w, stage);
    StageJobs(q, name, w, stage);
  }

  lemma StageLanes(q: Queue, name: string, w: nat, stage: Stage)
    requires LanesOk(q) && AtStage(q, name, w) && !StageAt(q, name, w).Closing? && !stage.Closing?
    ensures LanesOk(Setting(q, name, w, Busy(JobAt(q, name, w), stage)))
  {
    var q' := Setting(q, name, w, Busy(JobAt(q, name, w), stage));
    forall n | n in q'.lanes ensures LaneOk(q', n) {
      if n == name {
        StageLane(q, name, w, stage);
      } else {
        LaneFramed(q, q', n);
      }
    }
  }

  lemma StageLane(q: Queue, name: string, w: nat, stage: Stage)
    requires AtStage(q, name, w) && LaneOk(q, name) && !StageAt(q, name, w).Closing? && !stage.Closing?
    ensures LaneOk(Setting(q, name, w, Busy(JobAt(q, name, w), stage)), name)
  {
    var q' := Setting(q, name, w, Busy(JobAt(q, name, w), stage));
    var lane, lane' := q.lanes[name], q'.lanes[name];
    forall i | 0 <= i < |lane.fifo| ensures QueuedAt(q', name, lane.fifo[i], i) {
      assert QueuedAt(q, name, lane.fifo[i], i);
    }
    forall v | 0 <= v < |lane'.workers| ensures Holds(q', name, lane'.workers[v]) {
      assert Holds(q, name, lane.workers[v]);
    }
  }

  lemma StageJobs(q: Queue, name: string, w: nat, stage: Stage)
    requires JobsOk(q) && AtStage(q, name, w)
    ensures JobsOk(Setting(q, name, w, Busy(JobAt(q, name, w), stage)))
  {
    var q' := Setting(q, name, w, Busy(JobAt(q, name, w), stage));
    forall j | j in q.registry.records ensures JobOk(q', j) {
      if q.registry.records[j].lane == name && HeldIn(q.lanes[name].workers, j) {
        HeldElsewhere(q.lanes[name].workers, w, Busy(JobAt(q, name, w), stage), j);
      }
      JobFramed(q, q', j);
    }
  }

  lemma PublishStreams(q: Queue, id: JobId, e: S.Event)
    requires StreamsOk(q) && Linked(q) && id in q.registry.records
    requires id in q.streams && id in q.live && !q.streams[id].closed
    ensures StreamsOk(PublishTo(q, id, e))
  {
    var s := q.streams[id];
    S.StepKeeps(s, S.Publish(e));
    StreamReplaced(q, PublishTo(q, id, e), id, S.Apply(s, S.Publish(e)));
  }

  /** A buffer lacks a frame exactly once its record says so. */
  lemma PublishToKeeps(q: Queue, id: JobId, e: S.Event)
    requires Inv(q) && Linked(q) && id in q.registry.records && q.registry.records[id].state == Running
    requires id in q.streams && q.life == Serving
    ensures Inv(PublishTo(q, id, e))
  {
    assert JobOk(q, id);
    PublishLanes(q, id, e);
    PublishJobs(q, id, e);
    PublishStreams(q, id, e);
    PublishSame(q, id, e);
    TablesFramed(q, PublishTo(q, id, e));
  }

  lemma PublishSame(q: Queue, id: JobId, e: S.Event)
    requires Linked(q) && id in q.registry.records && id in q.streams
    ensures SameTables(q, PublishTo(q, id, e))
  {
  }

  /** The tables stand when no record comes, goes or changes state. */
  predicate SameTables(q: Queue, q': Queue) {
    && q'.registry.order == q.registry.order && q'.registry.records.Keys == q.registry.records.Keys
    && (forall j :: j in q.registry.records ==> q'.registry.records[j].state == q.registry.records[j].state)
    && q'.live == q.live && q'.life == q.life && q'.requests == q.requests && q'.timers <= q.timers
    && q'.submitted == q.submitted && q'.streams.Keys == q.streams.Keys
  }

  lemma TablesFramed(q: Queue, q': Queue)
    requires TablesOk(q) && OrderOk(q) && SameTables(q, q')
    ensures TablesOk(q') && OrderOk(q')
  {
  }

  lemma PublishLanes(q: Queue, id: JobId, e: S.Event)
    requires LanesOk(q) && Linked(q) && id in q.registry.records && id in q.streams && Working(q)
    ensures LanesOk(PublishTo(q, id, e))
  {
    forall n | n in q.lanes ensures LaneOk(PublishTo(q, id, e), n) {
      LaneFramed(q, PublishTo(q, id, e), n);
    }
  }

  lemma PublishJobs(q: Queue, id: JobId, e: S.Event)
    requires JobsOk(q) && StreamsOk(q) && Linked(q) && id in q.registry.records
    requires id in q.streams && q.registry.records[id].state == Running
    ensures JobsOk(PublishTo(q, id, e))
  {
    var q' := PublishTo(q, id, e);
    forall j | j in q.registry.records ensures JobOk(q', j) {
      assert JobOk(q, j);
      if j == id {
        PublishJob(q, id, e);
      } else {
        JobFramed(q, q', j);
      }
    }
  }

  lemma PublishJob(q: Queue, id: JobId, e: S.Event)
    requires Linked(q) && StreamsOk(q) && id in q.registry.records && id in q.streams
    requires JobOk(q, id) && q.registry.records[id].state == Running
    ensures id in PublishTo(q, id, e).registry.records && JobOk(PublishTo(q, id, e), id)
  {
    assert S.StreamOk(q.streams[id]);
    TruncatedIffOverflowed(q.streams[id], e);
  }

  lemma TruncatedIffOverflowed(s: S.Stream, e: S.Event)
    requires S.StreamOk(s) && !s.closed
    ensures var s' := S.Apply(s, S.Publish(e));
      s'.buffer != s'.published <==> s.buffer != s.published || |s.buffer| == s.capacity
  {
    var s' := S.Apply(s, S.Publish(e));
    if s.buffer == s.published && |s.buffer| < s.capacity {
      assert s'.buffer == s'.published;
    } else {
      assert |s'.buffer| < |s'.published|;
    }
  }

  lemma PublishesKeeps(q: Queue, name: string, w: nat, e: S.Event)
    requires Enabled(q, Publishes(name, w, e)) && Linked(q) && Inv(q)
    ensures Inv(Next(q, Publishes(name, w, e)))
  {
    var id := HeldAt(q, name, w);
    WorkerHolds(q, name, w);
    PublishToKeeps(q, id, e);
    var outcome := if e.terminal.Some? then e.terminal else StageAt(q, name, w).outcome;
    StageKeeps(PublishTo(q, id, e), name, w, Engine(outcome));
  }

  lemma PublishesErrorKeeps(q: Queue, name: string, w: nat, e: S.Event)
    requires Enabled(q, PublishesError(name, w, e)) && Linked(q) && Inv(q)
    ensures Inv(Next(q, PublishesError(name, w, e)))
  {
    var id := HeldAt(q, name, w);
    WorkerHolds(q, name, w);
    PublishToKeeps(q, id, e);
    StageKeeps(PublishTo(q, id, e), name, w, Ending(Some(StageAt(q, name, w).fate)));
  }

  lemma WorkerHolds(q: Queue, name: string, w: nat)
    requires LanesOk(q) && AtStage(q, name, w)
    ensures Holds(q, name, q.lanes[name].workers[w])
  {
    assert LaneOk(q, name);
  }

  // ------------------------------------------------------------------- finishing

  lemma FinishLanes(q: Queue, name: string, w: nat)
    requires LanesOk(q) && Linked(q) && (exists o :: StageReady(q, name, w, o))
    ensures LanesOk(Finished(q, name, w))
  {
    var q' := Finished(q, name, w);
    var id := HeldAt(q, name, w);
    forall n | n in q'.lanes ensures LaneOk(q', n) {
      assert LaneOk(q, n);
      if n == name {
        FinishLane(q, name, w);
      } else {
        WorkerHolds(q, name, w);
        LaneFramed(q, q', n);
      }
    }
  }

  predicate StageReady(q: Queue, name: string, w: nat, o: Option<S.Outcome>) {
    AtStage(q, name, w) && (StageAt(q, name, w) == Engine(o) || StageAt(q, name, w) == Ending(o))
  }

  lemma FinishLane(q: Queue, name: string, w: nat)
    requires LanesOk(q) && Linked(q) && (exists o :: StageReady(q, name, w, o))
    ensures LaneOk(Finished(q, name, w), name)
  {
    var q' := Finished(q, name, w);
    var lane, lane' := q.lanes[name], q'.lanes[name];
    WorkerHolds(q, name, w);
    assert LaneOk(q, name);
    forall i | 0 <= i < |lane.fifo| ensures QueuedAt(q', name, lane.fifo[i], i) {
      assert QueuedAt(q, name, lane.fifo[i], i);
    }
    forall v | 0 <= v < |lane'.workers| ensures Holds(q', name, lane'.workers[v]) {
      assert Holds(q, name, lane.workers[v]);
    }
  }

  lemma FinishJobs(q: Queue, name: string, w: nat)
    requires LanesOk(q) && JobsOk(q) && Linked(q) && (exists o :: StageReady(q, name, w, o))
    ensures JobsOk(Finished(q, name, w))
  {
    var q' := Finished(q, name, w);
    var id := HeldAt(q, name, w);
    WorkerHolds(q, name, w);
    forall j | j in q.registry.records ensures JobOk(q', j) {
      assert JobOk(q, j);
      if j != id {
        if q.registry.records[j].lane == name && HeldIn(q.lanes[name].workers, j) {
          HeldElsewhere(q.lanes[name].workers, w, Busy(id, Closing), j);
        }
        JobFramed(q, q', j);
      }
    }
  }

  lemma FinishStreams(q: Queue, name: string, w: nat)
    requires LanesOk(q) && JobsOk(q) && StreamsOk(q) && q.live == q.registry.records.Keys
    requires Linked(q) && (exists o :: StageReady(q, name, w, o))
    ensures StreamsOk(Finished(q, name, w))
  {
    var id := HeldAt(q, name, w);
    WorkerHolds(q, name, w);
    assert JobOk(q, id);
    S.StepKeeps(q.streams[id], S.Close);
    StreamReplaced(q, Finished(q, name, w), id, S.Apply(q.streams[id], S.Close));
  }

  lemma FinishesKeeps(q: Queue, name: string, w: nat)
    requires Enabled(q, Finishes(name, w)) && Linked(q) && Inv(q)
    ensures Inv(Next(q, Finishes(name, w)))
  {
    assert StageReady(q, name, w, StageAt(q, name, w).outcome);
    FinishLanes(q, name, w);
    FinishJobs(q, name, w);
    FinishStreams(q, name, w);
    WorkerHolds(q, name, w);
    FinishTablesKeep(q, name, w);
  }

  lemma FinishTablesKeep(q: Queue, name: string, w: nat)
    requires TablesOk(q) && OrderOk(q) && Linked(q) && (exists o :: StageReady(q, name, w, o))
    requires q.registry.records[HeldAt(q, name, w)].state == Running
    ensures TablesOk(Finished(q, name, w)) && OrderOk(Finished(q, name, w))
  {
    var id, q' := HeldAt(q, name, w), Finished(q, name, w);
    assert q'.registry.records.Keys == q.registry.records.Keys;
    FinishTables(q, q', id);
  }

  lemma FinishTables(q: Queue, q': Queue, id: JobId)
    requires TablesOk(q) && OrderOk(q) && id in q.registry.records
    requires id in q.streams && q.registry.records[id].state == Running
    requires q'.registry.order == q.registry.order && q'.registry.records.Keys == q.registry.records.Keys
    requires forall j :: j in q.registry.records ==>
      q'.registry.records[j].state == (if j == id then Terminal else q.registry.records[j].state)
    requires q'.live == q.live && q'.life == q.life && q'.requests == q.requests && q'.timers == q.timers
    requires q'.submitted == q.submitted && q'.streams.Keys == q.streams.Keys
    ensures TablesOk(q') && OrderOk(q')
  {
  }

  // -------------------------------------------------------------------- eviction

  lemma ReleaseLane(q: Queue, name: string, w: nat)
    requires LanesOk(q) && AtStage(q, name, w) && StageAt(q, name, w).Closing?
    ensures LaneOk(Released(q, name, w), name)
  {
    var q' := Released(q, name, w);
    var lane, lane' := q.lanes[name], q'.lanes[name];
    assert LaneOk(q, name);
    forall i | 0 <= i < |lane.fifo| ensures QueuedAt(q', name, lane.fifo[i], i) {
      assert QueuedAt(q, name, lane.fifo[i], i);
    }
    forall v | 0 <= v < |lane'.workers| ensures Holds(q', name, lane'.workers[v]) {
      assert Holds(q, name, lane.workers[v]);
    }
  }

  lemma ReleaseLanes(q: Queue, name: string, w: nat)
    requires LanesOk(q) && AtStage(q, name, w) && StageAt(q, name, w).Closing?
    ensures LanesOk(Released(q, name, w))
  {
    var q' := Released(q, name, w);
    forall n | n in q'.lanes ensures LaneOk(q', n) {
      if n == name {
        ReleaseLane(q, name, w);
      } else {
        WorkerHolds(q, name, w);
        LaneFramed(q, q', n);
      }
    }
  }

  lemma ReleaseJobs(q: Queue, name: string, w: nat)
    requires LanesOk(q) && JobsOk(q) && AtStage(q, name, w) && StageAt(q, name, w).Closing?
    ensures JobsOk(Released(q, name, w))
  {
    var q' := Released(q, name, w);
    var id := JobAt(q, name, w);
    WorkerHolds(q, name, w);
    forall j | j in q.registry.records ensures JobOk(q', j) {
      assert JobOk(q, j);
      if j != id {
        if q.registry.records[j].lane == name && HeldIn(q.lanes[name].workers, j) {
          HeldElsewhere(q.lanes[name].workers, w, Idle, j);
        }
        JobFramed(q, q', j);
      }
    }
  }

  lemma ReleasesKeeps(q: Queue, name: string, w: nat)
    requires Inv(q) && Enabled(q, Releases(name, w))
    ensures Inv(Released(q, name, w))
  {
    ReleaseLanes(q, name, w);
    ReleaseJobs(q, name, w);
    ReleaseTables(q, name, w);
  }

  lemma ReleaseTables(q: Queue, name: string, w: nat)
    requires LanesOk(q) && JobsOk(q) && TablesOk(q) && AtStage(q, name, w)
    ensures TablesOk(Released(q, name, w))
  {
    WorkerHolds(q, name, w);
    assert JobOk(q, JobAt(q, name, w));
  }

  /** A job on a timer is terminal, closed, and in nobody's hands. */
  lemma TimedIsOver(q: Queue, id: JobId)
    requires JobsOk(q) && StreamsOk(q) && q.live == q.registry.records.Keys
    requires BufferTimer(id) in q.timers || RecordTimer(id) in q.timers
    ensures id in q.registry.records ==> q.registry.records[id].state == Terminal
    ensures id in q.streams ==> q.streams[id].closed
  {
    assert id in q.registry.records ==> JobOk(q, id);
  }

  lemma DropBufferLanes(q: Queue, id: JobId)
    requires LanesOk(q) && Linked(q) && Working(q)
    ensures LanesOk(DropBuffer(q, id))
  {
    var q' := DropBuffer(q, id);
    forall n | n in q'.lanes ensures LaneOk(q', n) {
      LaneFramed(q, q', n);
    }
  }

  lemma DropBufferJobs(q: Queue, id: JobId)
    requires JobsOk(q) && StreamsOk(q) && Linked(q) && q.live == q.registry.records.Keys && BufferTimer(id) in q.timers
    ensures JobsOk(DropBuffer(q, id))
  {
    var q' := DropBuffer(q, id);
    TimedIsOver(q, id);
    forall j | j in q.registry.records ensures JobOk(q', j) {
      if j == id {
        DropBufferJob(q, id);
      } else {
        DropBufferOtherJob(q, id, j);
      }
    }
  }

  lemma DropBufferOtherJob(q: Queue, id: JobId, j: JobId)
    requires Linked(q) && q.live == q.registry.records.Keys
    requires j in q.registry.records && j != id && JobOk(q, j)
    ensures j in DropBuffer(q, id).registry.records && JobOk(DropBuffer(q, id), j)
  {
    JobFramed(q, DropBuffer(q, id), j);
  }

  /** A discard loses frames exactly when there were any to lose. */
  lemma DropBufferJob(q: Queue, id: JobId)
    requires id in q.registry.records && JobOk(q, id) && StreamsOk(q)
    requires Linked(q) && id in q.live && BufferTimer(id) in q.timers
    ensures JobOk(DropBuffer(q, id), id)
  {
    var s, s' := q.streams[id], DropBuffer(q, id).streams[id];
    assert s' == S.Apply(s, S.Discard);
    assert s'.buffer == [] && s'.published == s.published && |s.buffer| <= |s.published|;
  }

  lemma DropBufferStreams(q: Queue, id: JobId)
    requires JobsOk(q) && StreamsOk(q) && Linked(q) && q.live == q.registry.records.Keys && BufferTimer(id) in q.timers
    ensures StreamsOk(DropBuffer(q, id))
  {
    if id in q.live {
      TimedIsOver(q, id);
      S.StepKeeps(q.streams[id], S.Discard);
      StreamReplaced(q, DropBuffer(q, id), id, S.Apply(q.streams[id], S.Discard));
    }
  }

  lemma DropBufferSame(q: Queue, id: JobId)
    requires Linked(q) && q.live == q.registry.records.Keys
    ensures SameTables(q, DropBuffer(q, id))
  {
  }

  lemma BufferExpiresKeeps(q: Queue, id: JobId)
    requires Inv(q) && Linked(q) && Enabled(q, BufferExpires(id))
    ensures Inv(DropBuffer(q, id))
  {
    DropBufferLanes(q, id);
    DropBufferJobs(q, id);
    DropBufferStreams(q, id);
    DropBufferSame(q, id);
    TablesFramed(q, DropBuffer(q, id));
  }

  lemma DropRecordLanes(q: Queue, id: JobId)
    requires LanesOk(q) && JobsOk(q) && Working(q) && RecordTimer(id) in q.timers
    ensures LanesOk(DropRecord(q, id))
  {
    var q' := DropRecord(q, id);
    forall n | n in q'.lanes ensures LaneOk(q', n) {
      assert LaneOk(q, n);
      assert id in q.registry.records ==> JobOk(q, id);
      if Uses(q.lanes[n], id) {
        UsesOwn(q, n, id);
        assert false;
      }
      LaneFramed(q, q', n);
    }
  }

  lemma DropRecordJobs(q: Queue, id: JobId)
    requires JobsOk(q) && RecordTimer(id) in q.timers
    ensures JobsOk(DropRecord(q, id))
  {
    var q' := DropRecord(q, id);
    forall j | j in q'.registry.records ensures JobOk(q', j) {
      JobFramed(q, q', j);
    }
  }

  lemma DropRecordStreams(q: Queue, id: JobId)
    requires JobsOk(q) && StreamsOk(q) && q.live == q.registry.records.Keys && RecordTimer(id) in q.timers
    ensures StreamsOk(DropRecord(q, id))
  {
    TimedIsOver(q, id);
  }

  lemma DropRecordOrder(q: Queue, id: JobId)
    requires OrderOk(q)
    ensures OrderOk(DropRecord(q, id))
  {
    var keys := q.registry.records.Keys;
    var q' := DropRecord(q, id);
    assert q'.registry.records.Keys == keys - {id} == keys * (keys - {id});
    KeptTwice(q.submitted, keys, keys - {id});
    KeptDistinct(q.registry.order, keys - {id});
    KeptMembers(q.registry.order, keys - {id});
  }

  lemma DropRecordTables(q: Queue, id: JobId)
    requires TablesOk(q) && JobsOk(q) && RecordTimer(id) in q.timers
    ensures TablesOk(DropRecord(q, id))
  {
    assert id in q.registry.records ==> JobOk(q, id);
  }

  lemma RecordExpiresKeeps(q: Queue, id: JobId)
    requires Inv(q) && Enabled(q, RecordExpires(id))
    ensures Inv(DropRecord(q, id))
  {
    DropRecordLanes(q, id);
    DropRecordJobs(q, id);
    DropRecordStreams(q, id);
    DropRecordTables(q, id);
    DropRecordOrder(q, id);
  }

  // ------------------------------------------------------------------ submissions

  lemma EnsuredKeeps(q: Queue, name: string)
    requires Inv(q) && q.life == Serving
    ensures Inv(EnsureLane(q, name)) && name in EnsureLane(q, name).lanes
  {
    EnsuredLanes(q, name);
    EnsuredJobs(q, name);
  }

  /** What is asked of a newcomer: a lane that is there, and an id never used. */
  predicate Admissible(q: Queue, name: string, id: JobId) {
    q.life == Serving && name in q.lanes && id !in q.streams
  }

  lemma NewcomerIsUnknown(q: Queue, id: JobId)
    requires JobsOk(q) && id !in q.streams
    ensures id !in q.registry.records
  {
    assert id in q.registry.records ==> JobOk(q, id);
  }

  lemma EnqueueLane(q: Queue, name: string, id: JobId, request: Submission)
    requires LanesOk(q) && JobsOk(q) && Admissible(q, name, id)
    ensures LaneOk(Enqueue(q, name, id, request), name)
  {
    NewcomerIsUnknown(q, id);
    var q' := Enqueue(q, name, id, request);
    var lane, lane' := q.lanes[name], q'.lanes[name];
    assert LaneOk(q, name);
    forall i | 0 <= i < |lane.fifo| ensures QueuedAt(q', name, lane.fifo[i], i) && lane.fifo[i] != id {
      assert QueuedAt(q, name, lane.fifo[i], i);
    }
    forall w | 0 <= w < |lane.workers| ensures Holds(q', name, lane.workers[w]) {
      assert Holds(q, name, lane.workers[w]);
    }
    assert lane'.accepted == lane.accepted + [id] == lane.started + lane.fifo + [id] == lane'.started + lane'.fifo;
  }

  lemma EnqueueLanes(q: Queue, name: string, id: JobId, request: Submission)
    requires LanesOk(q) && JobsOk(q) && Admissible(q, name, id)
    ensures LanesOk(Enqueue(q, name, id, request))
  {
    NewcomerIsUnknown(q, id);
    var q' := Enqueue(q, name, id, request);
    forall n | n in q'.lanes ensures LaneOk(q', n) {
      if n == name {
        EnqueueLane(q, name, id, request);
      } else {
        LaneFramed(q, q', n);
      }
    }
  }

  lemma EnqueueJobs(q: Queue, name: string, id: JobId, request: Submission)
    requires JobsOk(q) && TablesOk(q) && Admissible(q, name, id)
    ensures JobsOk(Enqueue(q, name, id, request))
  {
    NewcomerIsUnknown(q, id);
    var q' := Enqueue(q, name, id, request);
    forall j | j in q'.registry.records ensures JobOk(q', j) {
      if j != id {
        JobFramed(q, q', j);
      }
    }
  }

  lemma EnqueueStreams(q: Queue, name: string, id: JobId, request: Submission)
    requires StreamsOk(q) && Admissible(q, name, id)
    ensures StreamsOk(Enqueue(q, name, id, request))
  {
  }

  lemma EnqueueTables(q: Queue, name: string, id: JobId, request: Submission)
    requires TablesOk(q) && JobsOk(q) && Admissible(q, name, id)
    ensures TablesOk(Enqueue(q, name, id, request))
  {
    NewcomerIsUnknown(q, id);
  }

  lemma EnqueueOrder(q: Queue, name: string, id: JobId, request: Submission)
    requires OrderOk(q) && JobsOk(q) && Admissible(q, name, id)
    ensures OrderOk(Enqueue(q, name, id, request))
  {
    NewcomerIsUnknown(q, id);
    var q' := Enqueue(q, name, id, request);
    var keys := q.registry.records.Keys;
    assert q'.registry.records.Keys == keys + {id};
    KeptAppend(q.submitted, [id], keys + {id});
    KeptOnly(q.submitted, keys, keys + {id});
    assert Kept([id], keys + {id}) == [id];
  }

  lemma SubmitKeeps(q: Queue, name: string, id: JobId, request: Submission)
    requires Inv(q) && id !in q.streams
    ensures Inv(Submit(q, name, id, request))
  {
    if !Refuses(q, name) {
      EnsuredKeeps(q, name);
      var r := EnsureLane(q, name);
      EnqueueLanes(r, name, id, request);
      EnqueueJobs(r, name, id, request);
      EnqueueStreams(r, name, id, request);
      EnqueueTables(r, name, id, request);
      EnqueueOrder(r, name, id, request);
    }
  }

  // -------------------------------------------------------------------- dispatch

  predicate CanDequeue(q: Queue, name: string, w: nat) {
    WorkerAt(q, name, w) && q.lanes[name].workers[w].Idle? && q.lanes[name].fifo != []
  }

  lemma HeadFacts(q: Queue, name: string, w: nat)
    requires LanesOk(q) && CanDequeue(q, name, w)
    ensures var lane := q.lanes[name];
      && lane.pending == lane.fifo && QueuedAt(q, name, lane.fifo[0], 0)
      && Without(lane.pending, lane.fifo[0]) == lane.fifo[1..] && lane.fifo[0] !in lane.fifo[1..]
  {
    assert LaneOk(q, name);
  }

  /** Taking the head changes no other record but in its position, and only one that is pending. */
  lemma OthersStand(records: map<JobId, Record>, pending: seq<JobId>, id: JobId, j: JobId)
    requires id in records && j in records && j != id
    ensures StartedRecords(records, pending, id)[j] == Renumbered(records[j], j, pending)
  {
  }

  lemma HeadRuns(records: map<JobId, Record>, pending: seq<JobId>, id: JobId)
    requires id in records
    ensures StartedRecords(records, pending, id).Keys == records.Keys
    ensures StartedRecords(records, pending, id)[id] == records[id].(state := Running, position := None)
  {
  }

  lemma DequeueQueued(q: Queue, name: string, w: nat, i: nat)
    requires LanesOk(q) && CanDequeue(q, name, w)
    requires q.lanes[name].fifo[0] in q.registry.records && i < |q.lanes[name].fifo| - 1
    ensures QueuedAt(Dequeue(q, name, w), name, q.lanes[name].fifo[1..][i], i)
  {
    HeadFacts(q, name, w);
    var lane := q.lanes[name];
    var rest := lane.fifo[1..];
    assert LaneOk(q, name);
    assert QueuedAt(q, name, lane.fifo[i + 1], i + 1);
    IndexIsUnique(rest, i);
    OthersStand(q.registry.records, rest, lane.fifo[0], rest[i]);
  }

  lemma NotQueuedAndHeld(q: Queue, name: string, v: nat)
    requires name in q.lanes && LaneOk(q, name) && Working(q)
    requires v < |q.lanes[name].workers| && q.lanes[name].workers[v].Busy?
    ensures q.lanes[name].workers[v].job !in q.lanes[name].fifo
  {
    var lane := q.lanes[name];
    assert Holds(q, name, lane.workers[v]);
    forall i | 0 <= i < |lane.fifo| ensures lane.fifo[i] != lane.workers[v].job {
      assert QueuedAt(q, name, lane.fifo[i], i);
    }
  }

  lemma DequeueHolds(q: Queue, name: string, w: nat, v: nat)
    requires LanesOk(q) && JobsOk(q) && CanDequeue(q, name, w) && q.lanes[name].fifo[0] in q.registry.records
    requires v < |q.lanes[name].workers|
    ensures Holds(Dequeue(q, name, w), name, Dequeue(q, name, w).lanes[name].workers[v])
  {
    HeadFacts(q, name, w);
    var lane := q.lanes[name];
    var id := lane.fifo[0];
    HeadRuns(q.registry.records, lane.fifo[1..], id);
    assert LaneOk(q, name) && Holds(q, name, lane.workers[v]) && JobOk(q, id);
    if v != w && lane.workers[v].Busy? {
      NotQueuedAndHeld(q, name, v);
      OthersStand(q.registry.records, lane.fifo[1..], id, lane.workers[v].job);
    }
  }

  lemma HeldApartWith(workers: seq<Worker>, w: nat, id: JobId)
    requires HoldApart(workers) && w < |workers| && workers[w].Idle?
    requires forall v :: 0 <= v < |workers| && workers[v].Busy? ==> workers[v].job != id
    ensures HoldApart(workers[w := Busy(id, Engine(None))])
  {
  }

  lemma DequeueApart(q: Queue, name: string, w: nat)
    requires LanesOk(q) && CanDequeue(q, name, w)
    ensures HoldApart(q.lanes[name].workers[w := Busy(q.lanes[name].fifo[0], Engine(None))])
  {
    var lane := q.lanes[name];
    assert LaneOk(q, name);
    forall v | 0 <= v < |lane.workers| && lane.workers[v].Busy? ensures lane.workers[v].job != lane.fifo[0] {
      NotQueuedAndHeld(q, name, v);
    }
    HeldApartWith(lane.workers, w, lane.fifo[0]);
  }

  lemma DequeueWaiting(q: Queue, name: string, w: nat)
    requires LanesOk(q) && CanDequeue(q, name, w) && q.lanes[name].fifo[0] in q.registry.records
    ensures WaitingOk(Dequeue(q, name, w), name)
  {
    var q' := Dequeue(q, name, w);
    HeadFacts(q, name, w);
    var rest := q'.lanes[name].fifo;
    forall i | 0 <= i < |rest| ensures QueuedAt(q', name, rest[i], i) {
      DequeueQueued(q, name, w, i);
    }
    assert LaneOk(q, name);
  }

  lemma DequeueWorkers(q: Queue, name: string, w: nat)
    requires LanesOk(q) && JobsOk(q) && CanDequeue(q, name, w) && q.lanes[name].fifo[0] in q.registry.records
    ensures WorkersOk(Dequeue(q, name, w), name)
  {
    var q' := Dequeue(q, name, w);
    var workers := q'.lanes[name].workers;
    forall v | 0 <= v < |workers| ensures Holds(q', name, workers[v]) {
      DequeueHolds(q, name, w, v);
    }
    DequeueApart(q, name, w);
    assert LaneOk(q, name);
  }

  lemma DequeueLane(q: Queue, name: string, w: nat)
    requires LanesOk(q) && JobsOk(q) && CanDequeue(q, name, w) && q.lanes[name].fifo[0] in q.registry.records
    ensures LaneOk(Dequeue(q, name, w), name)
  {
    DequeueWaiting(q, name, w);
    DequeueWorkers(q, name, w);
    assert LaneOk(q, name);
    HeadMoves(q.lanes[name].started, q.lanes[name].fifo);
  }

  lemma HeadMoves(started: seq<JobId>, waiting: seq<JobId>)
    requires waiting != []
    ensures started + [waiting[0]] + waiting[1..] == started + waiting
  {
  }

  lemma DequeueLanes(q: Queue, name: string, w: nat)
    requires LanesOk(q) && JobsOk(q) && CanDequeue(q, name, w) && q.lanes[name].fifo[0] in q.registry.records
    ensures LanesOk(Dequeue(q, name, w))
  {
    var q' := Dequeue(q, name, w);
    forall n | n in q'.lanes ensures LaneOk(q', n) {
      if n == name {
        DequeueLane(q, name, w);
      } else {
        DequeueOtherLane(q, name, w, n);
      }
    }
  }

  lemma DequeueOtherLane(q: Queue, name: string, w: nat, n: string)
    requires LanesOk(q) && CanDequeue(q, name, w) && q.lanes[name].fifo[0] in q.registry.records
    requires n in q.lanes && n != name
    ensures LaneOk(Dequeue(q, name, w), n)
  {
    var q' := Dequeue(q, name, w);
    HeadFacts(q, name, w);
    var lane := q.lanes[name];
    forall id | id in q.registry.records && q.registry.records[id].lane == n && Uses(q.lanes[n], id)
      ensures SameUse(q, q', id)
    {
      if id in lane.fifo {
        UsesOwn(q, name, id);
        assert false;
      }
      OthersStand(q.registry.records, lane.fifo[1..], lane.fifo[0], id);
    }
    LaneFramed(q, q', n);
  }

  lemma DequeueJobs(q: Queue, name: string, w: nat)
    requires LanesOk(q) && JobsOk(q) && TablesOk(q) && CanDequeue(q, name, w)
    requires q.lanes[name].fifo[0] in q.registry.records
    ensures JobsOk(Dequeue(q, name, w))
  {
    var q' := Dequeue(q, name, w);
    var id := q.lanes[name].fifo[0];
    HeadRuns(q.registry.records, Without(q.lanes[name].pending, id), id);
    forall j | j in q'.registry.records ensures JobOk(q', j) {
      if j == id {
        DequeueHeadJob(q, name, w);
      } else {
        DequeueOtherJob(q, name, w, j);
      }
    }
  }

  lemma DequeueHeadJob(q: Queue, name: string, w: nat)
    requires LanesOk(q) && JobsOk(q) && CanDequeue(q, name, w) && q.lanes[name].fifo[0] in q.registry.records
    ensures var id, q' := q.lanes[name].fifo[0], Dequeue(q, name, w);
      id in q'.registry.records && JobOk(q', id)
  {
    var q' := Dequeue(q, name, w);
    var id := q.lanes[name].fifo[0];
    HeadFacts(q, name, w);
    HeadRuns(q.registry.records, q.lanes[name].fifo[1..], id);
    assert JobOk(q, id);
    assert q'.lanes[name].workers[w] == Busy(id, Engine(None));
  }

  lemma DequeueOtherJob(q: Queue, name: string, w: nat, j: JobId)
    requires LanesOk(q) && JobsOk(q) && CanDequeue(q, name, w) && q.lanes[name].fifo[0] in q.registry.records
    requires j in q.registry.records && j != q.lanes[name].fifo[0]
    ensures j in Dequeue(q, name, w).registry.records && JobOk(Dequeue(q, name, w), j)
  {
    var q' := Dequeue(q, name, w);
    HeadFacts(q, name, w);
    OthersStand(q.registry.records, q.lanes[name].fifo[1..], q.lanes[name].fifo[0], j);
    assert JobOk(q, j);
    if q.registry.records[j].lane == name && HeldIn(q.lanes[name].workers, j) {
      HeldElsewhere(q.lanes[name].workers, w, Busy(q.lanes[name].fifo[0], Engine(None)), j);
    }
    JobFramed(q, q', j);
  }

  lemma DequeueTables(q: Queue, name: string, w: nat)
    requires LanesOk(q) && TablesOk(q) && CanDequeue(q, name, w) && q.lanes[name].fifo[0] in q.registry.records
    ensures TablesOk(Dequeue(q, name, w))
  {
    HeadFacts(q, name, w);
    var id := q.lanes[name].fifo[0];
    HeadRuns(q.registry.records, q.lanes[name].fifo[1..], id);
    forall j | j in q.registry.records && j != id
      ensures StartedRecords(q.registry.records, q.lanes[name].fifo[1..], id)[j].state == q.registry.records[j].state
    {
      OthersStand(q.registry.records, q.lanes[name].fifo[1..], id, j);
    }
  }

  lemma DequeueOrder(q: Queue, name: string, w: nat)
    requires OrderOk(q) && CanDequeue(q, name, w) && q.lanes[name].fifo[0] in q.registry.records
    ensures OrderOk(Dequeue(q, name, w))
  {
    assert Dequeue(q, name, w).registry.records.Keys == q.registry.records.Keys;
  }

  lemma DequeuesKeeps(q: Queue, name: string, w: nat)
    requires Inv(q) && CanDequeue(q, name, w) && q.lanes[name].fifo[0] in q.registry.records
    ensures Inv(Dequeue(q, name, w))
  {
    DequeueLanes(q, name, w);
    DequeueJobs(q, name, w);
    DequeueTables(q, name, w);
    DequeueOrder(q, name, w);
  }

  // -------------------------------------------------------------------- shutdown

  lemma SweptStreams(q: Queue)
    requires JobsOk(q) && StreamsOk(q) && Linked(q) && q.live == q.registry.records.Keys
    ensures StreamsOk(Sweep(q))
    ensures forall id :: id in q.registry.records ==> id in q.streams && Sweep(q).streams[id].closed
  {
    var q' := Sweep(q);
    forall id | id in q.streams
      ensures S.StreamOk(q'.streams[id]) && q'.streams[id].capacity == q.cfg.capacity && q'.streams[id].closed
    {
      if id in q.live {
        assert JobOk(q, id);
        if q.registry.records[id].state != Terminal {
          S.StepKeeps(q.streams[id], S.Close);
        }
      }
    }
    assert forall id :: id in q.registry.records ==> JobOk(q, id);
  }

  lemma SweptJobs(q: Queue)
    requires JobsOk(q) && StreamsOk(q) && Linked(q) && q.live == q.registry.records.Keys && q.timers == {}
    ensures JobsOk(Sweep(q))
  {
    SweptStreams(q);
    forall id | id in q.registry.records ensures JobOk(Sweep(q), id) {
      SweptJob(q, id);
    }
  }

  lemma SweptJob(q: Queue, id: JobId)
    requires id in q.registry.records && JobOk(q, id) && Buffered(q) && q.timers == {} && id in q.live
    ensures JobOk(Sweep(q), id)
  {
    var s, s' := q.streams[id], Sweep(q).streams[id];
    assert s' == SweptStream(q, id);
    assert s'.closed && s'.buffer == s.buffer && s'.published == s.published;
    assert Sweep(q).registry.records[id] == AbandonedRecord(q.registry.records[id]);
  }

  lemma SweepKeeps(q: Queue)
    requires Inv(q) && Linked(q) && q.life == Stopping
    ensures Inv(Sweep(q))
  {
    SweptStreams(q);
    SweptJobs(q);
    SweptLanes(q);
    assert Sweep(q).registry.records.Keys == q.registry.records.Keys;
  }

  lemma SweptLanes(q: Queue)
    requires LanesOk(q) && Linked(q) && q.life == Stopping
    ensures LanesOk(Sweep(q))
  {
    forall n | n in q.lanes ensures LaneOk(Sweep(q), n) {
      assert LaneOk(q, n);
    }
  }

  // ------------------------------------------------------------------- every step

  lemma StepKeeps(q: Queue, s: Step)
    requires Inv(q) && Linked(q) && Enabled(q, s)
    ensures Inv(Next(q, s))
  {
    match s
    case Start => StartKeeps(q);
    case MakesDefaultLane => EnsuredKeeps(q, DEFAULT_LANE);
    case Submits(name, id, request) => SubmitKeeps(q, name, id, request);
    case Dequeues(name, w) =>
      assert LaneLinked(q, q.lanes[name]);
      DequeuesKeeps(q, name, w);
    case Publishes(name, w, e) => PublishesKeeps(q, name, w, e);
    case Raises(name, w, timedOut) =>
      StageKeeps(q, name, w, Failing(if timedOut then S.JobTimedOut else S.EngineError));
    case PublishesError(name, w, e) => PublishesErrorKeeps(q, name, w, e);
    case Finishes(name, w) => FinishesKeeps(q, name, w);
    case Releases(name, w) => ReleasesKeeps(q, name, w);
    case BufferExpires(id) => BufferExpiresKeeps(q, id);
    case RecordExpires(id) => RecordExpiresKeeps(q, id);
    case Reads(id, a) => ReadKeeps(q, id, a);
    case Stop => StopKeeps(q);
    case SweepsUp => SweepKeeps(q);
  }

  lemma StopKeeps(q: Queue)
    requires Inv(q) && (q.life == Fresh || q.life == Serving)
    ensures Inv(q.(life := Stopping, timers := {}))
  {
    StopLanes(q);
    StopJobs(q);
  }
}
