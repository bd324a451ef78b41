/**
 One job's stream: a bounded replay buffer, and live fan-out to the readers attached to it.
 A reader is a generator, so it is attached before it first runs, joins when it does, and
 may be closed by its consumer at any point.
 */
module JobStreams {
  import opened Options

  datatype Outcome = JobTimedOut | EngineError | ShutdownAbandoned | Reported(name: nat)

  /** A frame of a run; a terminal one carries the run's outcome. */
  datatype Event = Event(frame: nat, terminal: Option<Outcome>)

  /** What a subscriber's own queue holds. */
  datatype Item = Frame(event: Event) | Sentinel

  datatype Phase = Attached | Live | Draining | Finished | Abandoned

  /** *missed* and *received* are bookkeeping: the frames published before its first, and those handed over. */
  datatype Reader = Reader(phase: Phase, replay: seq<Event>, inbox: seq<Item>, missed: nat, received: seq<Event>)

  /** *published* and *discarded* are bookkeeping: the whole history, and whether the buffer was released. */
  datatype Stream = Stream(
    capacity: nat, buffer: seq<Event>, closed: bool, readers: seq<Reader>, published: seq<Event>, discarded: bool)

  function Opened(capacity: nat): Stream {
    Stream(capacity, [], false, [], [], false)
  }

  /** The last *n* of a sequence, or all of it. */
  function LastN<T>(s: seq<T>, n: nat): (r: seq<T>)
    ensures |r| == (if |s| < n then |s| else n) && r == s[|s| - |r|..]
  {
    if |s| < n then s else s[|s| - n..]
  }

  // ---------------------------------------------------------------------- steps

  datatype Action =
    | Publish(event: Event)
    | Close
    | Discard
    | Attach
    | Join(reader: nat)      // the generator first runs
    | Take(reader: nat)      // it hands over one frame, or returns
    | Abandon(reader: nat)   // its consumer closes it

  /** The generator can go on without waiting. */
  predicate Ready(r: Reader) {
    (r.phase == Live && (r.replay != [] || r.inbox != [])) || r.phase == Draining
  }

  predicate Over(r: Reader) {
    r.phase == Finished || r.phase == Abandoned
  }

  /** The generator the step runs is there and can run. */
  predicate Runnable(s: Stream, a: Action) {
    match a
    case Join(i) => i < |s.readers| && s.readers[i].phase == Phase.Attached
    case Take(i) => i < |s.readers| && Ready(s.readers[i])
    case Abandon(i) => i < |s.readers| && !Over(s.readers[i])
    case _ => true
  }

  /** The stream's owner publishes and closes only an open stream, and discards only a closed one. */
  predicate Legal(s: Stream, a: Action) {
    && Runnable(s, a)
    && match a
       case Publish(_) => !s.closed
       case Close => !s.closed
       case Discard => s.closed
       case _ => true
  }

  /** A step of a reader's, not of the stream's owner. */
  predicate IsReading(a: Action) {
    a.Attach? || a.Join? || a.Take? || a.Abandon?
  }

  function Delivered(r: Reader, item: Item): Reader {
    if r.phase == Live then r.(inbox := r.inbox + [item]) else r
  }

  function FanOut(readers: seq<Reader>, item: Item): seq<Reader> {
    seq(|readers|, i requires 0 <= i < |readers| => Delivered(readers[i], item))
  }

  /** A bounded deque gains an item. */
  function Appended(buffer: seq<Event>, capacity: nat, event: Event): seq<Event> {
    LastN(buffer + [event], capacity)
  }

  function Joined(s: Stream): Reader
    requires |s.buffer| <= |s.published|
  {
    Reader(if s.closed then Draining else Live, s.buffer, [], |s.published| - |s.buffer|, [])
  }

  function Taken(r: Reader): Reader
    requires Ready(r)
  {
    if r.replay != [] then r.(replay := r.replay[1..], received := r.received + [r.replay[0]])
    else if r.phase == Draining || r.inbox[0] == Sentinel then r.(phase := Finished)
    else r.(inbox := r.inbox[1..], received := r.received + [r.inbox[0].event])
  }

  function Apply(s: Stream, a: Action): Stream
    requires Runnable(s, a) && |s.buffer| <= |s.published|
  {
    match a
    case Publish(e) =>
      s.(buffer := Appended(s.buffer, s.capacity, e),
         readers := FanOut(s.readers, Frame(e)),
         published := s.published + [e])
    case Close => s.(closed := true, readers := FanOut(s.readers, Sentinel))
    case Discard => s.(buffer := [], discarded := true)
    case Attach => s.(readers := s.readers + [Reader(Attached, [], [], 0, [])])
    case Join(i) => s.(readers := s.readers[i := Joined(s)])
    case Take(i) => s.(readers := s.readers[i := Taken(s.readers[i])])
    case Abandon(i) => s.(readers := s.readers[i := s.readers[i].(phase := Abandoned)])
  }

  /** Readers change nothing of the stream but themselves. */
  lemma ReadingStands(s: Stream, a: Action)
    requires Runnable(s, a) && |s.buffer| <= |s.published| && IsReading(a)
    ensures Apply(s, a).(readers := []) == s.(readers := [])
  {
  }

  // ------------------------------------------------------------------ invariant

  function Frames(inbox: seq<Item>): seq<Event> {
    if inbox == [] then []
    else if inbox[0].Frame? then [inbox[0].event] + Frames(inbox[1..])
    else Frames(inbox[1..])
  }

  /** A sentinel is the last item of an inbox, and is there exactly when the stream is closed. */
  predicate SentinelLast(inbox: seq<Item>, closed: bool) {
    && (forall k :: 0 <= k < |inbox| - 1 ==> inbox[k] != Sentinel)
    && (closed <==> |inbox| > 0 && inbox[|inbox| - 1] == Sentinel)
  }

  /** What a reader has been handed and what waits for it are an unbroken tail of the history. */
  predicate ReaderOk(published: seq<Event>, closed: bool, r: Reader) {
    match r.phase
    case Attached => r == Reader(Attached, [], [], 0, [])
    case Live =>
      && r.missed <= |published| && r.received + r.replay + Frames(r.inbox) == published[r.missed..]
      && SentinelLast(r.inbox, closed)
    case Draining =>
      closed && r.inbox == [] && r.missed <= |published| && r.received + r.replay == published[r.missed..]
    case Finished => closed && r.missed <= |published| && r.received == published[r.missed..]
    case Abandoned => r.missed <= |published| && r.received <= published[r.missed..]
  }

  predicate StreamOk(s: Stream) {
    && s.buffer == (if s.discarded then [] else LastN(s.published, s.capacity))
    && (s.discarded ==> s.closed)
    && (forall i :: 0 <= i < |s.readers| ==> ReaderOk(s.published, s.closed, s.readers[i]))
  }

  lemma {:induction false} FramesAppend(inbox: seq<Item>, item: Item)
    ensures Frames(inbox + [item]) == Frames(inbox) + (if item.Frame? then [item.event] else [])
  {
    if inbox == [] {
      assert inbox + [item] == [item];
    } else {
      assert (inbox + [item])[1..] == inbox[1..] + [item];
      FramesAppend(inbox[1..], item);
    }
  }

  lemma PublishReaches(published: seq<Event>, r: Reader, e: Event)
    requires ReaderOk(published, false, r)
    ensures ReaderOk(published + [e], false, Delivered(r, Frame(e)))
  {
    if r.phase != Attached {
      assert (published + [e])[r.missed..] == published[r.missed..] + [e];
      FramesAppend(r.inbox, Frame(e));
    }
  }

  lemma CloseReaches(published: seq<Event>, r: Reader)
    requires ReaderOk(published, false, r)
    ensures ReaderOk(published, true, Delivered(r, Sentinel))
  {
    FramesAppend(r.inbox, Sentinel);
  }

  lemma TakeAdvances(published: seq<Event>, closed: bool, r: Reader)
    requires ReaderOk(published, closed, r) && Ready(r)
    ensures ReaderOk(published, closed, Taken(r))
  {
    if r.replay != [] {
      assert r.received + r.replay == (r.received + [r.replay[0]]) + r.replay[1..];
    } else if r.phase == Live {
      assert Frames(r.inbox) == (if r.inbox[0].Frame? then [r.inbox[0].event] else []) + Frames(r.inbox[1..]);
      if r.inbox[0] == Sentinel {
        assert r.inbox[1..] == [];
      }
    }
  }

  lemma PublishKeeps(s: Stream, e: Event)
    requires StreamOk(s) && !s.closed
    ensures StreamOk(Apply(s, Publish(e)))
  {
    forall i | 0 <= i < |s.readers| ensures ReaderOk(s.published + [e], false, Delivered(s.readers[i], Frame(e))) {
      PublishReaches(s.published, s.readers[i], e);
    }
  }

  lemma CloseKeeps(s: Stream)
    requires StreamOk(s) && !s.closed
    ensures StreamOk(Apply(s, Close))
  {
    forall i | 0 <= i < |s.readers| ensures ReaderOk(s.published, true, Delivered(s.readers[i], Sentinel)) {
      CloseReaches(s.published, s.readers[i]);
    }
  }

  /** A reader moves alone. */
  lemma ReaderKeeps(s: Stream, i: nat, r: Reader)
    requires StreamOk(s) && i < |s.readers| && ReaderOk(s.published, s.closed, r)
    ensures StreamOk(s.(readers := s.readers[i := r]))
  {
  }

  lemma JoinedIsOk(s: Stream)
    requires StreamOk(s)
    ensures ReaderOk(s.published, s.closed, Joined(s))
  {
    var r := Joined(s);
    assert r.received + r.replay + Frames(r.inbox) == r.replay;
    assert r.received + r.replay == r.replay;
  }

  lemma AbandonedIsOk(published: seq<Event>, closed: bool, r: Reader)
    requires ReaderOk(published, closed, r)
    ensures ReaderOk(published, closed, r.(phase := Abandoned))
  {
    assert r.received + r.replay + Frames(r.inbox) == r.received + (r.replay + Frames(r.inbox));
  }

  /** Every legal step keeps the stream sound. */
  lemma StepKeeps(s: Stream, a: Action)
    requires StreamOk(s) && Legal(s, a)
    ensures StreamOk(Apply(s, a))
  {
    match a
    case Publish(e) => PublishKeeps(s, e);
    case Close => CloseKeeps(s);
    case Discard =>
    case Attach =>
    case Join(i) => JoinedIsOk(s); ReaderKeeps(s, i, Joined(s));
    case Take(i) => TakeAdvances(s.published, s.closed, s.readers[i]); ReaderKeeps(s, i, Taken(s.readers[i]));
    case Abandon(i) =>
      AbandonedIsOk(s.published, s.closed, s.readers[i]);
      ReaderKeeps(s, i, s.readers[i].(phase := Abandoned));
  }

  // ----------------------------------------------------------------------- runs

  predicate Playable(s: Stream, actions: seq<Action>)
    requires StreamOk(s)
    decreases |actions|
  {
    actions == [] || (Legal(s, actions[0]) && (StepKeeps(s, actions[0]); Playable(Apply(s, actions[0]), actions[1..])))
  }

  function Play(s: Stream, actions: seq<Action>): (r: Stream)
    requires StreamOk(s) && Playable(s, actions)
    ensures StreamOk(r)
    decreases |actions|
  {
    if actions == [] then s else (StepKeeps(s, actions[0]); Play(Apply(s, actions[0]), actions[1..]))
  }

  /** A joined reader keeps its place: its start is fixed, and what it has been handed only grows. */
  predicate KeepsPlace(before: Reader, after: Reader) {
    before.phase != Attached ==>
      after.phase != Attached && after.missed == before.missed && before.received <= after.received
      && (Over(before) ==> after == before)
  }

  lemma TakeKeepsPlace(r: Reader)
    requires Ready(r)
    ensures KeepsPlace(r, Taken(r))
  {
  }

  lemma StepKeepsPlace(s: Stream, a: Action, i: nat)
    requires Runnable(s, a) && |s.buffer| <= |s.published| && i < |s.readers|
    ensures i < |Apply(s, a).readers| && KeepsPlace(s.readers[i], Apply(s, a).readers[i])
  {
    match a
    case Publish(e) => assert Apply(s, a).readers[i] == Delivered(s.readers[i], Frame(e));
    case Close => assert Apply(s, a).readers[i] == Delivered(s.readers[i], Sentinel);
    case Discard =>
    case Attach =>
    case Join(j) =>
    case Take(j) => TakeKeepsPlace(s.readers[j]);
    case Abandon(j) =>
  }

  lemma {:induction false} PlayKeepsPlaces(s: Stream, actions: seq<Action>, i: nat)
    requires StreamOk(s) && Playable(s, actions) && i < |s.readers|
    ensures i < |Play(s, actions).readers| && KeepsPlace(s.readers[i], Play(s, actions).readers[i])
    decreases |actions|
  {
    if actions != [] {
      StepKeeps(s, actions[0]);
      StepKeepsPlace(s, actions[0], i);
      PlayKeepsPlaces(Apply(s, actions[0]), actions[1..], i);
    }
  }

  /** How many of the published frames a joining reader is still in time for. */
  function InTime(s: Stream): nat {
    if s.discarded then 0 else if |s.published| < s.capacity then |s.published| else s.capacity
  }

  /**
   Reader *i*, having joined at *s*, has at *end* been handed, in order and without gap or
   repeat, frames from the first of those kept at *s* on, and has returned only with them all.
   */
  ghost predicate SeesTail(s: Stream, i: nat, end: Stream) {
    && i < |end.readers| && InTime(s) <= |s.published| && s.published <= end.published
    && var r, tail := end.readers[i], end.published[|s.published| - InTime(s)..];
       r.missed == |s.published| - InTime(s) && r.received <= tail && (r.phase == Finished ==> r.received == tail)
  }

  /**
   Whatever the interleaving: a reader that joins when *n* frames have been published is
   handed the last min(capacity, n) of them (none once the buffer is discarded), then every
   later frame; it returns only when it has them all.
   */
  lemma ReaderSeesAnUnbrokenTail(s: Stream, i: nat, later: seq<Action>)
    requires StreamOk(s) && Legal(s, Join(i)) && Playable(s, [Join(i)] + later)
    ensures SeesTail(s, i, Play(s, [Join(i)] + later))
  {
    var actions := [Join(i)] + later;
    assert actions[1..] == later;
    StepKeeps(s, Join(i));
    var joined := Apply(s, Join(i));
    PlayKeepsPlaces(joined, later, i);
    HistoryGrows(joined, later);
    var end := Play(joined, later);
    assert end == Play(s, actions);
    HandedIsPrefix(end.published, end.closed, end.readers[i]);
  }

  /** A legal step before a run makes a run. */
  lemma PlayFrom(s: Stream, a: Action, rest: seq<Action>)
    requires StreamOk(s) && Legal(s, a) && StreamOk(Apply(s, a)) && Playable(Apply(s, a), rest)
    ensures Playable(s, [a] + rest) && Play(s, [a] + rest) == Play(Apply(s, a), rest)
  {
    assert ([a] + rest)[1..] == rest;
  }

  lemma {:induction false} HistoryGrows(s: Stream, actions: seq<Action>)
    requires StreamOk(s) && Playable(s, actions)
    ensures s.published <= Play(s, actions).published
    decreases |actions|
  {
    if actions != [] {
      StepKeeps(s, actions[0]);
      HistoryGrows(Apply(s, actions[0]), actions[1..]);
    }
  }

  lemma HandedIsPrefix(published: seq<Event>, closed: bool, r: Reader)
    requires ReaderOk(published, closed, r) && r.phase != Attached
    ensures r.missed <= |published| && r.received <= published[r.missed..]
  {
    assert r.received + r.replay + Frames(r.inbox) == r.received + (r.replay + Frames(r.inbox));
  }

  /** What a reader comes to when its consumer keeps asking and nothing else is published. */
  function Drained(r: Reader): Reader
    decreases |r.replay| + |r.inbox|, if Over(r) then 0 else 1
  {
    if Ready(r) then Drained(Taken(r)) else r
  }

  /** A joined reader of a closed stream always returns, and by then has been handed the whole tail. */
  lemma {:induction false} ClosedReaderFinishes(published: seq<Event>, r: Reader)
    requires ReaderOk(published, true, r) && (r.phase == Live || r.phase == Draining || r.phase == Finished)
    ensures Drained(r).phase == Finished && Drained(r).received == published[r.missed..]
    decreases |r.replay| + |r.inbox|, if Over(r) then 0 else 1
  {
    if r.phase != Finished {
      TakeAdvances(published, true, r);
      ClosedReaderFinishes(published, Taken(r));
    }
  }
}
