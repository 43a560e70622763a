/**
 * One subscription's two-stage queue: a bounded channel and, behind it, an
 * overflow queue that parks what the channel cannot take.
 */
module Lane {

  /** How an offer of a frame to one subscription ends. */
  datatype Delivery = Taken | Closed | Overflowed

  /**
   * `channel` is read by the consumer, `queue` holds parked frames, `open`
   * tells whether the receiver still exists. `warnings` and `doublings` are
   * history: the warnings logged in this parking episode, and how often the
   * threshold `warnAt` was doubled in it.
   */
  datatype Lane<T> = Lane(
    capacity: nat, limit: nat,
    channel: seq<T>, queue: seq<T>, open: bool,
    warned: bool, warnAt: nat, warnings: nat, doublings: nat)

  function Pow2(n: nat): (p: nat)
    ensures p >= 1
  {
    if n == 0 then 1 else 2 * Pow2(n - 1)
  }

  function Contents<T>(l: Lane<T>): seq<T> {
    l.channel + l.queue
  }

  predicate Sized<T>(l: Lane<T>) {
    l.capacity >= 1 && |l.channel| <= l.capacity && |l.queue| <= l.limit
  }

  /** The growth log: the threshold is a doubled capacity, above the depth. */
  predicate Logged<T>(l: Lane<T>) {
    && (l.queue != [] ==> l.warned)
    && (l.warned ==>
          && l.warnings >= 1
          && l.warnAt == l.capacity * Pow2(l.doublings)
          && l.doublings + 1 >= l.warnings
          && |l.queue| < l.warnAt
          && (l.warnings >= 2 ==> l.capacity * Pow2(l.warnings - 2) <= l.limit))
  }

  predicate Valid<T>(l: Lane<T>) {
    Sized(l) && Logged(l)
  }

  function NewLane<T>(limit: nat, capacity: nat): (l: Lane<T>)
    ensures Valid(l) && Contents(l) == [] && l.open
  {
    Lane(if capacity >= 1 then capacity else 1, limit, [], [], true, false, 0, 0, 0)
  }

  function ResetWarnings<T>(l: Lane<T>): Lane<T> {
    l.(warned := false, warnAt := 0, warnings := 0, doublings := 0)
  }

  /** `drain_overflow`: parked frames move up until the channel is full. */
  function Drained<T>(l: Lane<T>): (r: (Lane<T>, bool))
    decreases |l.queue|
  {
    if l.queue == [] then (ResetWarnings(l), true)
    else if !l.open then (l.(queue := []), false)
    else if |l.channel| >= l.capacity then (l, true)
    else Drained(l.(channel := l.channel + [l.queue[0]], queue := l.queue[1..]))
  }

  /** The doubling loop, and how many times it goes round. */
  function Doublings(warnAt: nat, depth: nat): (n: nat)
    decreases if warnAt <= depth then depth - warnAt + 1 else 0
  {
    if 1 <= warnAt <= depth then 1 + Doublings(2 * warnAt, depth) else 0
  }

  /** `park`: `false`, and nothing parked, at the limit. */
  function Parked<T>(l: Lane<T>, x: T): (r: (Lane<T>, bool)) {
    if |l.queue| >= l.limit then (l, false)
    else
      var depth := |l.queue| + 1;
      var base := if l.warned then l.warnAt else l.capacity;
      var done := if l.warned then l.doublings else 0;
      var n := Doublings(base, depth);
      (l.(queue := l.queue + [x],
          warned := true,
          warnAt := base * Pow2(n),
          warnings := if !l.warned then 1 else if depth >= l.warnAt then l.warnings + 1 else l.warnings,
          doublings := done + n),
       true)
  }

  /** `deliver_and_keep` */
  function Offered<T>(l: Lane<T>, x: T): (r: (Lane<T>, Delivery)) {
    var (d, alive) := Drained(l);
    if !alive then (d, Closed)
    else if d.queue == [] && !d.open then (d, Closed)
    else if d.queue == [] && |d.channel| < d.capacity then (d.(channel := d.channel + [x]), Taken)
    else
      var (p, parked) := Parked(d, x);
      (p, if parked then Taken else Overflowed)
  }

  /** The consumer takes the oldest frame from the channel. */
  function Received<T>(l: Lane<T>): Lane<T>
    requires l.channel != []
  {
    l.(channel := l.channel[1..])
  }

  /** A reconnect discards what a client-mode subscription had parked. */
  function Discarded<T>(l: Lane<T>): Lane<T> {
    if l.queue == [] then l else ResetWarnings(l.(queue := []))
  }

  // ---------------------------------------------------------------- drain

  lemma {:induction false} DrainedValid<T>(l: Lane<T>)
    requires Valid(l)
    ensures Valid(Drained(l).0)
    decreases |l.queue|
  {
    if l.queue != [] && l.open && |l.channel| < l.capacity {
      DrainedValid(l.(channel := l.channel + [l.queue[0]], queue := l.queue[1..]));
    }
  }

  /**
   * On a live receiver a drain moves frames up and loses or reorders none; it
   * stops only when the queue is empty or the channel full. It fails exactly
   * when the receiver is gone and something was parked.
   */
  lemma {:induction false} DrainedKeepsOrder<T>(l: Lane<T>)
    requires Sized(l)
    ensures var (d, alive) := Drained(l);
            && (alive <==> l.open || l.queue == [])
            && (alive ==> Contents(d) == Contents(l))
            && (alive ==> d.queue == [] || |d.channel| == d.capacity)
            && l.channel <= d.channel
            && (d.capacity, d.limit, d.open) == (l.capacity, l.limit, l.open)
    decreases |l.queue|
  {
    if l.queue != [] && l.open && |l.channel| < l.capacity {
      var next := l.(channel := l.channel + [l.queue[0]], queue := l.queue[1..]);
      DrainedKeepsOrder(next);
      assert Contents(next) == Contents(l);
    }
  }

  // ---------------------------------------------------------------- parking and its log

  lemma {:induction false} DoublingsPass(warnAt: nat, depth: nat)
    requires warnAt >= 1
    ensures warnAt * Pow2(Doublings(warnAt, depth)) > depth
    ensures Doublings(warnAt, depth) > 0 <==> warnAt <= depth
    ensures warnAt * Pow2(Doublings(warnAt, depth)) <= (if warnAt > 2 * depth then warnAt else 2 * depth)
         || Doublings(warnAt, depth) == 0
    decreases if warnAt <= depth then depth - warnAt + 1 else 0
  {
    if warnAt <= depth {
      DoublingsPass(2 * warnAt, depth);
      var n := Doublings(2 * warnAt, depth);
      PowStep(warnAt, n);
    }
  }

  lemma PowStep(w: nat, n: nat)
    ensures w * Pow2(n + 1) == 2 * w * Pow2(n)
  {
  }

  lemma {:induction false} PowAdd(a: nat, b: nat)
    ensures Pow2(a) * Pow2(b) == Pow2(a + b)
  {
    if b > 0 {
      PowAdd(a, b - 1);
      assert Pow2(a) * Pow2(b) == 2 * (Pow2(a) * Pow2(b - 1));
    }
  }

  lemma {:induction false} PowMonotone(a: nat, b: nat)
    requires a <= b
    ensures Pow2(a) <= Pow2(b)
  {
    if a < b {
      PowMonotone(a, b - 1);
    }
  }

  lemma ScaledMonotone(c: nat, a: nat, b: nat)
    requires a <= b
    ensures c * Pow2(a) <= c * Pow2(b)
  {
    PowMonotone(a, b);
    assert c * (Pow2(b) - Pow2(a)) >= 0;
  }

  /** Parking keeps the log's invariant: warnings stay logarithmic in the limit. */
  lemma ParkedValid<T>(l: Lane<T>, x: T)
    requires Valid(l)
    ensures Valid(Parked(l, x).0)
    ensures Parked(l, x).1 ==> |Parked(l, x).0.queue| < Parked(l, x).0.warnAt
  {
    if |l.queue| < l.limit {
      var depth := |l.queue| + 1;
      var base := if l.warned then l.warnAt else l.capacity;
      var done := if l.warned then l.doublings else 0;
      var n := Doublings(base, depth);
      assert base == l.capacity * Pow2(done) by { assert Pow2(0) == 1; }
      BaseAtLeastOne(l);
      DoublingsPass(base, depth);
      Rescaled(l.capacity, base, done, n);
      if l.warned && depth >= l.warnAt {
        ScaledMonotone(l.capacity, l.warnings - 1, l.doublings);
      }
      hide Pow2, Doublings;
    }
  }

  lemma BaseAtLeastOne<T>(l: Lane<T>)
    requires Valid(l)
    ensures l.capacity >= 1 && (l.warned ==> l.warnAt >= 1)
  {
    if l.warned {
      assert l.capacity * Pow2(l.doublings) >= 1;
    }
  }

  lemma Rescaled(capacity: nat, base: nat, done: nat, n: nat)
    requires base == capacity * Pow2(done)
    ensures base * Pow2(n) == capacity * Pow2(done + n)
  {
    PowAdd(done, n);
    hide Pow2;
    assert capacity * Pow2(done) * Pow2(n) == capacity * (Pow2(done) * Pow2(n));
  }

  /** The threshold never runs past twice the depth that raised it: no overflow below 2^63 frames. */
  lemma ThresholdBounded<T>(l: Lane<T>, x: T)
    requires Valid(l) && Parked(l, x).1
    ensures var base := if l.warned then l.warnAt else l.capacity;
            Parked(l, x).0.warnAt == base || Parked(l, x).0.warnAt <= 2 * (|l.queue| + 1)
  {
    var base := if l.warned then l.warnAt else l.capacity;
    DoublingsPass(base, |l.queue| + 1);
    assert base * Pow2(0) == base;
  }

  // ---------------------------------------------------------------- one bounded FIFO

  /** The size of the FIFO the two stages make up. */
  function Room<T>(l: Lane<T>): nat {
    l.capacity + l.limit
  }

  /**
   * An offer is the enqueue of one bounded FIFO: accepted at the back exactly
   * when there is room in the two stages together, refused as `Overflowed`
   * exactly when there is none, `Closed` exactly when the receiver is gone.
   */
  lemma OfferRefinesFifo<T>(l: Lane<T>, x: T)
    requires Valid(l)
    ensures var (n, outcome) := Offered(l, x);
            && Valid(n)
            && (n.capacity, n.limit, n.open) == (l.capacity, l.limit, l.open)
            && (outcome == Closed <==> !l.open)
            && (outcome == Taken <==> l.open && |Contents(l)| < Room(l))
            && (outcome == Overflowed <==> l.open && |Contents(l)| == Room(l))
            && (outcome == Taken ==> Contents(n) == Contents(l) + [x])
            && (outcome == Overflowed ==> Contents(n) == Contents(l))
            && l.channel <= n.channel
  {
    DrainedValid(l);
    DrainedKeepsOrder(l);
    var d := Drained(l).0;
    ParkedValid(d, x);
    hide Drained, Logged, Doublings, Pow2;
    if l.open {
      assert d.channel + (d.queue + [x]) == d.channel + d.queue + [x];
      if d.queue == [] {
        assert d.channel + [x] + [] == d.channel + [] + [x];
      }
    }
  }

  lemma ReceiveRefinesFifo<T>(l: Lane<T>)
    requires Valid(l) && l.channel != []
    ensures Valid(Received(l)) && Contents(Received(l)) == Contents(l)[1..] && Contents(l)[0] == l.channel[0]
  {
    assert Contents(l)[1..] == l.channel[1..] + l.queue;
  }

  /** One thing that can happen to a live subscription's queue. */
  datatype Event<T> = Offering(x: T) | Draining | Receiving

  /** `received ++ contents` against everything `accepted`, and the verdicts on the way. */
  datatype Trace<T> = Trace(lane: Lane<T>, received: seq<T>, accepted: seq<T>, verdicts: seq<Delivery>)

  function Step<T>(t: Trace<T>, e: Event<T>): Trace<T> {
    match e
    case Offering(x) =>
      var (n, outcome) := Offered(t.lane, x);
      t.(lane := n,
         accepted := if outcome == Taken then t.accepted + [x] else t.accepted,
         verdicts := t.verdicts + [outcome])
    case Draining => t.(lane := Drained(t.lane).0)
    case Receiving =>
      if t.lane.channel == [] then t
      else t.(lane := Received(t.lane), received := t.received + [t.lane.channel[0]])
  }

  lemma StepValid<T>(t: Trace<T>, e: Event<T>)
    requires Valid(t.lane)
    ensures Valid(Step(t, e).lane)
  {
    match e {
      case Offering(x) => OfferRefinesFifo(t.lane, x);
      case Draining => DrainedValid(t.lane);
      case Receiving =>
        if t.lane.channel != [] {
          ReceiveRefinesFifo(t.lane);
        }
    }
  }

  /** The simple specification: a bounded FIFO that an offer fills and a receive may empty. */
  datatype Fifo<T> = Fifo(room: nat, items: seq<T>, received: seq<T>, verdicts: seq<Delivery>)

  function FifoOffer<T>(f: Fifo<T>, x: T): Fifo<T> {
    if |f.items| < f.room then f.(items := f.items + [x], verdicts := f.verdicts + [Taken])
    else f.(verdicts := f.verdicts + [Overflowed])
  }

  function FifoReceive<T>(f: Fifo<T>): Fifo<T>
    requires f.items != []
  {
    f.(items := f.items[1..], received := f.received + [f.items[0]])
  }

  function Abstract<T>(t: Trace<T>): Fifo<T> {
    Fifo(Room(t.lane), Contents(t.lane), t.received, t.verdicts)
  }

  /** Every event is one step of the FIFO or leaves it as it is. */
  lemma StepRefinesFifo<T>(t: Trace<T>, e: Event<T>)
    requires Valid(t.lane) && t.lane.open
    ensures Step(t, e).lane.open && Valid(Step(t, e).lane)
    ensures match e
            case Offering(x) => Abstract(Step(t, e)) == FifoOffer(Abstract(t), x)
            case Draining => Abstract(Step(t, e)) == Abstract(t)
            case Receiving =>
              if t.lane.channel == [] then Abstract(Step(t, e)) == Abstract(t)
              else Abstract(Step(t, e)) == FifoReceive(Abstract(t))
    ensures t.received + Contents(t.lane) == t.accepted ==>
              Step(t, e).received + Contents(Step(t, e).lane) == Step(t, e).accepted
  {
    StepValid(t, e);
    hide Drained, Offered, Valid;
    match e {
      case Offering(x) =>
        OfferRefinesFifo(t.lane, x);
        assert t.received + (Contents(t.lane) + [x]) == t.received + Contents(t.lane) + [x];
      case Draining =>
        assert Sized(t.lane) by { ValidSized(t.lane); }
        DrainedKeepsOrder(t.lane);
      case Receiving =>
        if t.lane.channel != [] {
          ReceiveRefinesFifo(t.lane);
          assert Contents(t.lane) == [t.lane.channel[0]] + Contents(t.lane)[1..];
          assert t.received + ([t.lane.channel[0]] + Contents(t.lane)[1..])
              == t.received + [t.lane.channel[0]] + Contents(t.lane)[1..];
        }
    }
  }

  lemma ValidSized<T>(l: Lane<T>)
    requires Valid(l)
    ensures Sized(l)
  {
  }

  function Run<T>(t: Trace<T>, events: seq<Event<T>>): Trace<T>
    decreases |events|
  {
    if events == [] then t else Run(Step(t, events[0]), events[1..])
  }

  /**
   * Over any run from a fresh subscription: what was received, then the
   * channel, then the overflow queue is exactly what was accepted, in order,
   * and the two stages never hold more than max(capacity, 1) + limit frames.
   */
  lemma RunConserves<T>(limit: nat, capacity: nat, events: seq<Event<T>>)
    ensures var t := Run(Trace(NewLane(limit, capacity), [], [], []), events);
            && t.received + t.lane.channel + t.lane.queue == t.accepted
            && |t.lane.channel| + |t.lane.queue| <= (if capacity >= 1 then capacity else 1) + limit
  {
    var t := Trace(NewLane<T>(limit, capacity), [], [], []);
    hide Run, Valid;
    RunKeeps(t, events);
    var r := Run(t, events);
    assert Sized(r.lane) by { ValidSized(r.lane); }
    assert r.received + r.lane.channel + r.lane.queue == r.received + (r.lane.channel + r.lane.queue);
  }

  /**
   * Over any run, an episode with w >= 2 warnings has capacity times 2^(w-2)
   * within the limit, and the threshold is a doubled capacity above the depth.
   */
  lemma WarningsLogarithmic<T>(limit: nat, capacity: nat, events: seq<Event<T>>)
    ensures var l := Run(Trace(NewLane(limit, capacity), [], [], []), events).lane;
            l.warned ==>
              && l.warnAt == l.capacity * Pow2(l.doublings) && |l.queue| < l.warnAt
              && (l.warnings >= 2 ==> (if capacity >= 1 then capacity else 1) * Pow2(l.warnings - 2) <= limit)
  {
    var t := Trace(NewLane<T>(limit, capacity), [], [], []);
    hide Run;
    RunKeeps(t, events);
  }

  lemma {:induction false} RunKeeps<T>(t: Trace<T>, events: seq<Event<T>>)
    requires Valid(t.lane) && t.lane.open
    requires t.received + Contents(t.lane) == t.accepted
    ensures var r := Run(t, events);
            && Valid(r.lane) && r.lane.open && Room(r.lane) == Room(t.lane)
            && (r.lane.capacity, r.lane.limit) == (t.lane.capacity, t.lane.limit)
            && r.received + Contents(r.lane) == r.accepted
    decreases |events|
  {
    hide Valid, Step, Contents;
    if events != [] {
      StepRefinesFifo(t, events[0]);
      StepKeepsSize(t, events[0]);
      RunKeeps(Step(t, events[0]), events[1..]);
    }
  }

  lemma StepKeepsSize<T>(t: Trace<T>, e: Event<T>)
    requires Valid(t.lane)
    ensures (Step(t, e).lane.capacity, Step(t, e).lane.limit) == (t.lane.capacity, t.lane.limit)
  {
    hide Drained, Offered;
    match e {
      case Offering(x) => OfferRefinesFifo(t.lane, x);
      case Draining => DrainedKeepsOrder(t.lane);
      case Receiving =>
    }
  }
}
