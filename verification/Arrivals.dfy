/** What becomes of every MESSAGE that arrives: it is handled to its end and offered to all it is for. */
module Arrivals {
  import opened Options
  import opened Lane
  import opened Entry
  import opened Types
  import opened Registry
  import opened Ledger
  import opened Client
  import opened Invariant
  import opened Delivery
  import opened Runs
  import opened Traces

  /** Step `j` is the arrival of a MESSAGE. */
  predicate Arrives(steps: seq<Step>, j: nat)
    requires j < |steps|
  {
    steps[j].Io? && steps[j].i.Arrive?
  }

  /** The message carries exactly what arrived at step `j`. */
  predicate IsThatOf(states: seq<State>, steps: seq<Step>, j: nat, m: Message)
    requires j < |steps| && |states| == |steps| + 1 && Arrives(steps, j)
  {
    && m.dest == steps[j].i.dest && m.sub == steps[j].i.sub
    && m.msgId == steps[j].i.msgId && m.ackId == steps[j].i.ackId
    && m.serial == states[j].nextSerial && m.session == states[j].session
  }

  /** How many more sections may come before the delivery pass. */
  function SectionsLeft(p: Phase): nat {
    if p.Collecting? then 2 else if p.Recording? then 1 else 0
  }

  /** The task took no delivery pass from step `j + 1` up to `i`. */
  predicate NoPass(steps: seq<Step>, j: nat, i: nat)
    requires i <= |steps|
  {
    forall k | j < k < i :: !(steps[k].Io? && steps[k].i.Deliver?)
  }

  // ---------------------------------------------------------------- one section

  /** An arrival puts the message in hand, or nothing when it names a subscription failed at its limit. */
  lemma ArrivalTaken(s: State, e: TaskStep)
    requires TaskEnabled(s, e) && e.Arrive?
    ensures var n := TaskNext(s, e);
            && (n.phase.Idle? <==> e.sub.Some? && e.sub.value in s.reg.failedIds)
            && (!n.phase.Idle? ==>
                  && HoldsMessage(n.phase)
                  && n.phase.m.dest == e.dest && n.phase.m.sub == e.sub
                  && n.phase.m.msgId == e.msgId && n.phase.m.ackId == e.ackId
                  && n.phase.m.serial == s.nextSerial && n.phase.m.session == s.session)
  {
    hide AckTargets, Acking;
  }

  /** Each of the task's sections brings a message in hand nearer to its delivery pass, or is that pass. */
  lemma HeldOn(s: State, e: TaskStep)
    requires TaskEnabled(s, e) && HoldsMessage(s.phase)
    ensures e.Deliver? || e.Collect? || e.Record?
    ensures e.Deliver? ==> s.phase.Delivering?
    ensures !e.Deliver? ==>
              && HoldsMessage(TaskNext(s, e).phase) && SectionsLeft(TaskNext(s, e).phase) < SectionsLeft(s.phase)
              && TaskNext(s, e).phase.m.(horizon := s.phase.m.horizon) == s.phase.m
  {
    hide AckTargets, Recorded, Lists, Woken, Overrun, DoDeliver;
  }

  lemma StepHolds(s: State, e: Step)
    requires Enabled(s, e) && HoldsMessage(s.phase) && !(e.Io? && e.i.Deliver?)
    ensures HoldsMessage(Next(s, e).phase)
    ensures Next(s, e).phase.m.(horizon := s.phase.m.horizon) == s.phase.m
    ensures SectionsLeft(Next(s, e).phase) + (if e.Io? then 1 else 0) <= SectionsLeft(s.phase)
  {
    match e {
      case App(a) =>
        AppFrame(s, a);
        hide AppNext;
      case Io(i) =>
        HeldOn(s, i);
        hide TaskNext;
      case Net(n) =>
    }
  }

  // ---------------------------------------------------------------- over a run

  /**
   * A MESSAGE that arrives is put down at once if and only if it names a
   * subscription that was failed at its limit.
   */
  lemma DroppedExactly(states: seq<State>, steps: seq<Step>, j: nat)
    requires IsRun(states, steps) && j < |steps| && |states| == |steps| + 1 && Arrives(steps, j)
    ensures states[j + 1].phase.Idle?
            <==> steps[j].i.sub.Some? && steps[j].i.sub.value in states[j].reg.failedIds
    ensures !states[j + 1].phase.Idle? ==>
              HoldsMessage(states[j + 1].phase) && IsThatOf(states, steps, j, states[j + 1].phase.m)
  {
    RunStep(states, steps, j);
    hide IsRun, TaskNext;
    ArrivalTaken(states[j], steps[j].i);
  }

  /**
   * Any other stays in hand, with its headers, its serial and its session,
   * until a delivery pass; the I/O task does nothing but look up whom to record
   * it for and record it before, two sections at most.
   */
  lemma {:induction false} HeldUntilPass(states: seq<State>, steps: seq<Step>, j: nat, i: nat)
    requires IsRun(states, steps) && j < i < |states| == |steps| + 1 && Arrives(steps, j)
    requires !(steps[j].i.sub.Some? && steps[j].i.sub.value in states[j].reg.failedIds)
    requires NoPass(steps, j, i)
    ensures HoldsMessage(states[i].phase) && IsThatOf(states, steps, j, states[i].phase.m)
    ensures SectionsLeft(states[i].phase) + TaskSteps(steps, j + 1, i) <= 2
    decreases i
  {
    hide IsRun, Next, Enabled, IsThatOf, HoldsMessage;
    RunSize(states, steps);
    if i == j + 1 {
      DroppedExactly(states, steps, j);
    } else {
      HeldUntilPass(states, steps, j, i - 1);
      RunStep(states, steps, i - 1);
      assert !(steps[i - 1].Io? && steps[i - 1].i.Deliver?);
      StepHolds(states[i - 1], steps[i - 1]);
      SameMessage(states, steps, j, states[i - 1].phase, states[i].phase);
    }
  }

  /** How many steps of the I/O task there are from `a` up to `b`. */
  function TaskSteps(steps: seq<Step>, a: nat, b: nat): nat
    requires a <= b <= |steps|
    decreases b - a
  {
    if a == b then 0 else TaskSteps(steps, a, b - 1) + if steps[b - 1].Io? then 1 else 0
  }

  lemma SameMessage(states: seq<State>, steps: seq<Step>, j: nat, p: Phase, q: Phase)
    requires j < |steps| && |states| == |steps| + 1 && Arrives(steps, j)
    requires HoldsMessage(p) && HoldsMessage(q) && q.m.(horizon := p.m.horizon) == p.m
    requires IsThatOf(states, steps, j, p.m)
    ensures IsThatOf(states, steps, j, q.m)
  {
  }

  // ---------------------------------------------------------------- the delivery pass

  /** The message is for this entry: it names it, or names no subscription and has its destination. */
  predicate IsFor(r: Reg, m: Message, id: SubId)
    requires id in r.subs
  {
    r.subs[id].registered && if m.sub.Some? then m.sub == Some(id) else m.dest == Some(r.subs[id].dest)
  }

  /** What a delivery pass does to one entry: it takes the message, or leaves with its channel still to be read. */
  predicate Served(m: Message, sub: Sub, n: Sub, isFor: bool) {
    if !isFor then n == sub
    else
      && sub.lane.channel <= n.lane.channel && n.lane.open == sub.lane.open
      && n.received == sub.received && n.dest == sub.dest && n.mode == sub.mode
      && if sub.lane.open && |sub.lane.channel| + |sub.lane.queue| < sub.lane.capacity + sub.lane.limit then
           && n.registered && n.ended == sub.ended && n.accepted == sub.accepted + [m]
           && n.lane.channel + n.lane.queue == sub.lane.channel + sub.lane.queue + [m]
           && (n.lane.queue == [] || |n.lane.channel| == n.lane.capacity)
           && (n.lane.capacity, n.lane.limit) == (sub.lane.capacity, sub.lane.limit)
         else
           && !n.registered && n.lane.queue == [] && n.accepted == sub.accepted
           && n.ended == if sub.lane.open then Ended(OverLimit(sub.lane.limit)) else sub.ended
  }

  lemma PassServes(s: State, e: TaskStep, id: SubId)
    requires TaskEnabled(s, e) && e.Deliver? && RegGood(s.reg) && id in s.reg.subs
    ensures id in TaskNext(s, e).reg.subs
    ensures Served(s.phase.m, s.reg.subs[id], TaskNext(s, e).reg.subs[id], IsFor(s.reg, s.phase.m, id))
  {
    var m := s.phase.m;
    assert SubGood(s.reg.subs[id]);
    OfferServes(s.reg.subs[id], m);
    hide AfterOffer, WakeGood, SubGood, Served, Lists, Woken, Overrun, RegisteredIds;
    assert Target(s.reg, m, id) <==> IsFor(s.reg, m, id);
    NotServed(m, s.reg.subs[id]);
  }

  lemma NotServed(m: Message, sub: Sub)
    ensures Served(m, sub, sub, false)
  {
  }

  lemma OfferServes(sub: Sub, m: Message)
    requires SubGood(sub)
    ensures sub.registered ==> Served(m, sub, AfterOffer(sub, m), true)
  {
    if sub.registered {
      OfferRefinesFifo(sub.lane, m);
      if Offered(sub.lane, m).1 == Taken {
        OfferFillsChannel(sub.lane, m);
      }
      hide Offered, Logged;
    }
  }

  /** The channel is full before anything is parked. */
  lemma OfferFillsChannel<T>(l: Lane<T>, x: T)
    requires Valid(l) && Offered(l, x).1 == Taken
    ensures Offered(l, x).0.queue == [] || |Offered(l, x).0.channel| == l.capacity
  {
    DrainedKeepsOrder(l);
    DrainedValid(l);
    hide Drained, Logged, Doublings, Pow2;
  }

  /**
   * At the delivery pass of a message every entry it is for gets it, at the
   * back, if its receiver is there and its two stages have room; else it is
   * dropped, or failed with its limit. No other entry changes.
   */
  lemma PassReaches(states: seq<State>, steps: seq<Step>, d: nat, id: SubId)
    requires IsRun(states, steps) && d < |steps| && |states| == |steps| + 1
    requires steps[d].Io? && steps[d].i.Deliver? && id in states[d].reg.subs
    ensures states[d].phase.Delivering? && id in states[d + 1].reg.subs
    ensures var m := states[d].phase.m;
            Served(m, states[d].reg.subs[id], states[d + 1].reg.subs[id], IsFor(states[d].reg, m, id))
  {
    hide IsRun, Sound, Served, IsFor, RegGood, TaskNext, HistoryPart, LedgerPart, OpsPart, PhaseGood;
    RunStep(states, steps, d);
    RunSound(states, steps, d);
    SoundParts(states[d]);
    PassServes(states[d], steps[d].i, id);
  }

  /**
   * From the wire to the consumer's queue: a MESSAGE that arrives and is not
   * for a subscription failed at its limit is, at the task's next delivery
   * pass, the last thing accepted by every entry that is registered then, that
   * it is for, and that has its receiver and room.
   */
  lemma ArrivedReaches(states: seq<State>, steps: seq<Step>, j: nat, d: nat, id: SubId)
    requires IsRun(states, steps) && j < d < |steps| && |states| == |steps| + 1 && Arrives(steps, j)
    requires !(steps[j].i.sub.Some? && steps[j].i.sub.value in states[j].reg.failedIds)
    requires NoPass(steps, j, d) && steps[d].Io? && steps[d].i.Deliver?
    requires id in states[d].reg.subs
    requires var sub := states[d].reg.subs[id];
             && sub.registered && sub.lane.open
             && (if steps[j].i.sub.Some? then steps[j].i.sub == Some(id) else steps[j].i.dest == Some(sub.dest))
             && |sub.lane.channel| + |sub.lane.queue| < sub.lane.capacity + sub.lane.limit
    ensures id in states[d + 1].reg.subs && states[d + 1].reg.subs[id].registered
    ensures var accepted := states[d + 1].reg.subs[id].accepted;
            && |accepted| == |states[d].reg.subs[id].accepted| + 1
            && IsThatOf(states, steps, j, accepted[|accepted| - 1])
  {
    hide IsRun;
    HeldUntilPass(states, steps, j, d);
    PassReaches(states, steps, d, id);
  }
}
