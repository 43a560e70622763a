/** The registry entry and its channel, updated in place. */
module Entry {
  import opened Lane

  datatype SendResult = Sent | Full | Disconnected

  /** The bounded channel between the I/O task and one consumer. */
  class Channel<T> {
    const capacity: nat
    var buffer: seq<T>
    var open: bool

    constructor (capacity: nat)
      ensures this.capacity == capacity && buffer == [] && open
    {
      this.capacity := capacity;
      buffer := [];
      open := true;
    }

    /** `try_send`: never waits; a closed receiver outranks a full buffer. */
    method TrySend(x: T) returns (r: SendResult)
      modifies this`buffer
      ensures r == if !open then Disconnected else if |old(buffer)| >= capacity then Full else Sent
      ensures buffer == if r == Sent then old(buffer) + [x] else old(buffer)
    {
      if !open {
        return Disconnected;
      }
      if |buffer| >= capacity {
        return Full;
      }
      buffer := buffer + [x];
      return Sent;
    }
  }

  /** The reasons a subscription can end for. */
  datatype End = Abandoned(message: string) | OverLimit(limit: nat) | Unsubscribed | ConnectionClosed

  datatype MaybeEnd = Running | Ended(reason: End)

  class SubscriptionEntry<T> {
    const sender: Channel<T>
    const capacity: nat
    const limit: nat
    var queue: seq<T>
    var warned: bool
    var warnAt: nat
    ghost var warnings: nat
    ghost var doublings: nat
    var ended: MaybeEnd

    /** The entry and its channel as one two-stage queue. */
    ghost function View(): Lane<T>
      reads this, sender
    {
      Lane(capacity, limit, sender.buffer, queue, sender.open, warned, warnAt, warnings, doublings)
    }

    ghost predicate Wired()
      reads this, sender
    {
      sender.capacity == capacity
    }

    constructor (limit: nat, capacity: nat)
      ensures Wired() && View() == NewLane(limit, capacity) && ended == Running
      ensures fresh(sender)
    {
      var size := if capacity >= 1 then capacity else 1;
      this.capacity := size;
      this.limit := limit;
      sender := new Channel(size);
      queue := [];
      warned := false;
      warnAt := 0;
      warnings := 0;
      doublings := 0;
      ended := Running;
    }

    /** `end_subscription`: the first reason to be recorded stays. */
    method EndSubscription(reason: End)
      modifies this`ended
      ensures ended == if old(ended).Running? then Ended(reason) else old(ended)
    {
      if ended.Running? {
        ended := Ended(reason);
      }
    }

    method Reset()
      modifies this`warned, this`warnAt, this`warnings, this`doublings
      ensures View() == ResetWarnings(old(View()))
    {
      warned := false;
      warnAt := 0;
      warnings := 0;
      doublings := 0;
    }

    method DrainOverflow() returns (alive: bool)
      requires Wired()
      modifies this`queue, this`warned, this`warnAt, this`warnings, this`doublings, sender`buffer
      ensures Wired()
      ensures (View(), alive) == Drained(old(View()))
    {
      while queue != []
        invariant Wired()
        invariant Drained(View()) == Drained(old(View()))
        decreases |queue|
      {
        ghost var before := queue;
        var parked := queue[0];
        queue := queue[1..];
        var r := sender.TrySend(parked);
        match r {
          case Sent =>
          case Full =>
            queue := [parked] + queue;
            assert queue == before;
            break;
          case Disconnected =>
            queue := [];
            return false;
        }
      }
      if queue == [] {
        Reset();
      }
      return true;
    }

    method Park(x: T) returns (ok: bool)
      requires Wired() && Valid(View())
      modifies this`queue, this`warned, this`warnAt, this`warnings, this`doublings
      ensures Wired()
      ensures (View(), ok) == Parked(old(View()), x)
    {
      if |queue| >= limit {
        return false;
      }
      queue := queue + [x];
      var depth := |queue|;
      if !warned {
        warned := true;
        warnAt := capacity;
        warnings := 1;
        doublings := 0;
      } else if depth >= warnAt {
        warnings := warnings + 1;
      }
      ghost var base := warnAt;
      ghost var done := doublings;
      BaseAtLeastOne(old(View()));
      assert base * Pow2(0) == base;
      while warnAt <= depth
        invariant 1 <= warnAt
        invariant doublings >= done && warnAt == base * Pow2(doublings - done)
        invariant doublings - done + Doublings(warnAt, depth) == Doublings(base, depth)
        decreases depth - warnAt
        modifies this`warnAt, this`doublings
      {
        PowStep(base, doublings - done);
        warnAt := warnAt * 2;
        doublings := doublings + 1;
      }
      return true;
    }

    /** Deliver without ever waiting: to the channel, else parked, else refused. */
    method DeliverAndKeep(x: T) returns (outcome: Delivery)
      requires Wired() && Valid(View())
      modifies this`queue, this`warned, this`warnAt, this`warnings, this`doublings, sender`buffer
      ensures Wired() && Valid(View())
      ensures (View(), outcome) == Offered(old(View()), x)
    {
      OfferRefinesFifo(View(), x);
      DrainedValid(View());
      var alive := DrainOverflow();
      if !alive {
        return Closed;
      }
      if queue == [] {
        var r := sender.TrySend(x);
        match r {
          case Sent => return Taken;
          case Disconnected => return Closed;
          case Full =>
        }
      }
      var parked := Park(x);
      return if parked then Taken else Overflowed;
    }

    /**
     * The delivery closure on one entry: it stays exactly when it took the
     * frame, and one failed at its limit has that recorded before it goes.
     */
    method Serve(x: T) returns (keep: bool)
      requires Wired() && Valid(View())
      modifies this`queue, this`warned, this`warnAt, this`warnings, this`doublings, this`ended, sender`buffer
      ensures Wired() && Valid(View())
      ensures View() == Offered(old(View()), x).0 && keep == (Offered(old(View()), x).1 == Taken)
      ensures ended == if Offered(old(View()), x).1 == Overflowed && old(ended).Running?
                       then Ended(OverLimit(limit)) else old(ended)
    {
      hide Offered, Valid;
      var outcome := DeliverAndKeep(x);
      if outcome == Overflowed {
        EndSubscription(OverLimit(limit));
      }
      return outcome == Taken;
    }

    /** What a reconnect does to the entry of a client-mode subscription. */
    method DiscardParked()
      requires Wired()
      modifies this`queue, this`warned, this`warnAt, this`warnings, this`doublings
      ensures Wired() && View() == Discarded(old(View()))
    {
      if queue != [] {
        queue := [];
        Reset();
      }
    }
  }
}
