/** The stream as the object the queue holds, and its generators as objects of their own. */
module JobStreamObject {
  import opened Options
  import opened JobStreams

  /** One generator of a stream: its frame and, once it is live, the queue it waits on. */
  class Subscription {
    var phase: Phase
    var replay: seq<Event>
    var inbox: seq<Item>
    ghost var missed: nat
    ghost var received: seq<Event>

    constructor ()
      ensures View() == Reader(Phase.Attached, [], [], 0, [])
    {
      phase, replay, inbox, missed, received := Phase.Attached, [], [], 0, [];
    }

    ghost function View(): Reader
      reads this
    {
      Reader(phase, replay, inbox, missed, received)
    }

    method Put(item: Item)
      modifies this`inbox
      ensures inbox == old(inbox) + [item]
    {
      inbox := inbox + [item];
    }
  }

  /** A list loses the first occurrence of an element. */
  function Removed<T(==)>(s: seq<T>, x: T): (r: seq<T>)
    ensures x !in s ==> r == s
    ensures forall y :: y in r ==> y in s
    ensures forall y :: y in s && y != x ==> y in r
    ensures NoDuplicates(s) ==> NoDuplicates(r) && x !in r
  {
    if s == [] then []
    else if s[0] == x then s[1..]
    else
      var rest := Removed(s[1..], x);
      assert NoDuplicates(s) ==> NoDuplicates(s[1..]) && s[0] !in s[1..];
      [s[0]] + rest
  }

  ghost predicate NoDuplicates<T>(s: seq<T>) {
    forall i, j :: 0 <= i < j < |s| ==> s[i] != s[j]
  }

  datatype Yield = Handed(event: Event) | Returned | Waiting

  class JobStream {
    const capacity: nat
    var buffer: seq<Event>
    var subscribers: seq<Subscription>
    var closed: bool
    ghost var published: seq<Event>
    ghost var discarded: bool
    ghost var attached: seq<Subscription>

    ghost predicate Valid()
      reads this, attached
    {
      && |buffer| <= capacity && |buffer| <= |published|
      && NoDuplicates(attached) && NoDuplicates(subscribers)
      && (forall r :: r in subscribers ==> r in attached)
      && (forall r :: r in attached ==> (r in subscribers <==> r.phase == Live))
    }

    ghost function View(): Stream
      reads this, attached
    {
      Stream(capacity, buffer, closed,
        seq(|attached|, i requires 0 <= i < |attached| reads this, attached => attached[i].View()),
             published, discarded)
    }

    constructor (capacity: nat)
      ensures Valid() && attached == [] && View() == Opened(capacity)
    {
      this.capacity := capacity;
      buffer, subscribers, closed := [], [], false;
      published, discarded, attached := [], false, [];
    }

    /** Put one item in every subscriber's own queue. */
    method FanOutTo(item: Item)
      requires Valid()
      modifies subscribers
      ensures forall r :: r in attached ==> r.View() == Delivered(old(r.View()), item)
    {
      for k := 0 to |subscribers|
        invariant forall j :: 0 <= j < k ==>
          subscribers[j].View() == old(subscribers[j].View()).(inbox := old(subscribers[j].inbox) + [item])
        invariant forall j :: k <= j < |subscribers| ==> subscribers[j].View() == old(subscribers[j].View())
        invariant forall r :: r in attached && r !in subscribers ==> r.View() == old(r.View())
      {
        subscribers[k].Put(item);
      }
    }

    method PublishEvent(event: Event) returns (dropped: bool)
      requires Valid()
      modifies this`buffer, this`published, subscribers
      ensures Valid() && View() == Apply(old(View()), Publish(event))
      ensures dropped <==> |buffer| <= |old(buffer)|
    {
      dropped := |buffer| == capacity;
      if capacity > 0 {
        buffer := (if |buffer| == capacity then buffer[1..] else buffer) + [event];
      }
      published := published + [event];
      FanOutTo(Frame(event));
    }

    method CloseStream()
      requires Valid()
      modifies this`closed, subscribers
      ensures Valid() && View() == Apply(old(View()), Close)
    {
      closed := true;
      FanOutTo(Sentinel);
    }

    method DiscardBuffer() returns (dropped: nat)
      requires Valid()
      modifies this`buffer, this`discarded
      ensures Valid() && View() == Apply(old(View()), Discard) && dropped == |old(buffer)|
    {
      dropped := |buffer|;
      buffer, discarded := [], true;
    }

    /** A new generator over the stream; its body has not run yet. */
    method NewReader() returns (r: Subscription)
      requires Valid()
      modifies this`attached
      ensures Valid() && fresh(r) && attached == old(attached) + [r]
      ensures View() == Apply(old(View()), Action.Attach)
    {
      r := new Subscription();
      attached := attached + [r];
    }

    /** One request to a generator: it starts if it has not, then hands over, returns or waits. */
    method Next(r: Subscription, ghost i: nat) returns (result: Yield)
      requires Valid() && i < |attached| && attached[i] == r && !Over(r.View())
      modifies this`subscribers, r
      ensures Valid()
      ensures var started := if old(r.phase) == Phase.Attached then Apply(old(View()), Join(i)) else old(View());
        && View() == (if Ready(started.readers[i]) then Apply(started, Take(i)) else started)
        && (result == Waiting <==> !Ready(started.readers[i]))
        && (result == Returned <==> r.phase == Finished)
        && (result.Handed? ==> r.received == started.readers[i].received + [result.event])
    {
      if r.phase == Phase.Attached {
        Start(r, i);
      }
      result := Resume(r, i);
    }

    /** The generator's body up to its loop. */
    method Start(r: Subscription, ghost i: nat)
      requires Valid() && i < |attached| && attached[i] == r && r.phase == Phase.Attached
      modifies this`subscribers, r
      ensures Valid() && View() == Apply(old(View()), Join(i)) && (r.phase == Live || r.phase == Draining)
    {
      r.replay, r.inbox, r.missed, r.received := buffer, [], |published| - |buffer|, [];
      if closed {
        r.phase := Draining;
      } else {
        subscribers := subscribers + [r];
        r.phase := Live;
      }
    }

    /** The generator's loops, up to the next frame it hands over. */
    method Resume(r: Subscription, ghost i: nat) returns (result: Yield)
      requires Valid() && i < |attached| && attached[i] == r && (r.phase == Live || r.phase == Draining)
      modifies this`subscribers, r
      ensures Valid()
      ensures var reader := old(r.View());
        && View() == (if Ready(reader) then Apply(old(View()), Take(i)) else old(View()))
        && (result == Waiting <==> !Ready(reader))
        && (result == Returned <==> r.phase == Finished)
        && (result.Handed? ==> r.received == reader.received + [result.event])
    {
      if r.replay != [] {
        result := Handed(r.replay[0]);
        r.received := r.received + [r.replay[0]];
        r.replay := r.replay[1..];
      } else if r.phase == Draining {
        r.phase := Finished;
        result := Returned;
      } else if r.inbox == [] {
        result := Waiting;
      } else if r.inbox[0] == Sentinel {
        subscribers := Removed(subscribers, r);
        r.phase := Finished;
        result := Returned;
      } else {
        result := Handed(r.inbox[0].event);
        r.received := r.received + [r.inbox[0].event];
        r.inbox := r.inbox[1..];
      }
    }

    /** The consumer closes the generator; a live one takes itself off the subscriber list. */
    method CloseReader(r: Subscription, ghost i: nat)
      requires Valid() && i < |attached| && attached[i] == r && !Over(r.View())
      modifies this`subscribers, r
      ensures Valid() && View() == Apply(old(View()), Abandon(i))
    {
      if r.phase == Live {
        subscribers := Removed(subscribers, r);
      }
      r.phase := Abandoned;
    }
  }
}
