/** Where the MESSAGE in hand, and every message a subscription accepted, came from. */
module Traces {
  import opened Types
  import opened Registry
  import opened History
  import opened Ledger
  import opened Wire
  import opened Client
  import opened Invariant
  import opened Delivery
  import opened Runs

  /** Step `a` is the arrival of `m`, under its headers, in its session. */
  predicate ArrivedAt(states: seq<State>, steps: seq<Step>, a: nat, m: Message)
    requires a < |steps| && |states| == |steps| + 1
  {
    && steps[a] == Io(Arrive(m.dest, m.sub, m.msgId, m.ackId))
    && m.serial == states[a].nextSerial && m.session == states[a].session
  }

  /**
   * Step `l` is the last at which the client looked up whom to record `m` for:
   * its arrival, or for one routed by destination that somebody acknowledges
   * the second look behind it.
   */
  predicate LookedUpAt(states: seq<State>, steps: seq<Step>, a: nat, l: nat, m: Message)
    requires a <= l < |steps| && |states| == |steps| + 1
  {
    && ArrivedAt(states, steps, a, m)
    && m.horizon == states[l].reg.nextId
    && if l == a then !states[a + 1].phase.Collecting?
       else
         && m.sub.None? && steps[l] == Io(Collect)
         && states[l].phase.Collecting? && states[l].phase.m.serial == m.serial
  }

  /** Step `d` is a delivery pass with `m` in hand, routed to the registered `id`. */
  predicate DeliveredAt(states: seq<State>, steps: seq<Step>, d: nat, id: SubId, m: Message)
    requires d < |steps| && |states| == |steps| + 1
  {
    steps[d].Io? && steps[d].i.Deliver? && states[d].phase == Delivering(m) && Target(states[d].reg, m, id)
  }

  // ---------------------------------------------------------------- the message in hand

  /** The message the I/O task has in hand and what it has done with it. */
  ghost predicate InHand(states: seq<State>, steps: seq<Step>, i: nat, p: Phase)
    requires i <= |steps| && |states| == |steps| + 1
  {
    match p
    case Collecting(m) => m.sub.None? && exists a | 0 <= a < i :: ArrivedAt(states, steps, a, m)
    case Recording(m, _) => exists a, l | 0 <= a <= l < i :: LookedUpAt(states, steps, a, l, m)
    case Delivering(m) => exists a, l | 0 <= a <= l < i :: LookedUpAt(states, steps, a, l, m)
    case _ => true
  }

  predicate HoldsMessage(p: Phase) {
    p.Collecting? || p.Recording? || p.Delivering?
  }

  /** How a message gets into the task's hands and through them. */
  predicate HandMove(s: State, e: Step, p: Phase)
    requires HoldsMessage(p)
  {
    || p == s.phase
    || (e.Io? && e.i.Arrive? && p.m == Incoming(s, e.i.dest, e.i.sub, e.i.msgId, e.i.ackId)
        && (p.Collecting? ==> p.m.sub.None?))
    || (e == Io(Collect) && s.phase.Collecting? && !p.Collecting? && p.m == s.phase.m.(horizon := s.reg.nextId))
    || (e == Io(Record) && s.phase.Recording? && p == Delivering(s.phase.m))
  }

  lemma HandMoves(s: State, e: Step)
    requires Enabled(s, e) && HoldsMessage(Next(s, e).phase)
    ensures HandMove(s, e, Next(s, e).phase)
  {
    match e {
      case App(a) =>
        AppFrame(s, a);
        hide AppNext;
      case Io(i) => TaskHand(s, i);
      case Net(n) =>
    }
  }

  lemma TaskHand(s: State, e: TaskStep)
    requires TaskEnabled(s, e) && HoldsMessage(TaskNext(s, e).phase)
    ensures HandMove(s, Io(e), TaskNext(s, e).phase)
  {
    match e {
      case Arrive(dest, sub, msgId, ackId) => ArriveHand(s, Incoming(s, dest, sub, msgId, ackId));
      case Collect =>
      case Record => hide Recorded;
      case _ => OtherHand(s, e);
    }
  }

  lemma ArriveHand(s: State, m: Message)
    ensures var p := DoArrive(s, m).phase;
            HoldsMessage(p) ==> p == s.phase || (p.m == m && (p.Collecting? ==> m.sub.None?))
  {
    hide AckTargets;
  }

  /** Every other section leaves no message in hand, or the one there was. */
  lemma OtherHand(s: State, e: TaskStep)
    requires TaskEnabled(s, e) && !e.Arrive? && !e.Collect? && !e.Record?
    ensures HoldsMessage(TaskNext(s, e).phase) ==> TaskNext(s, e).phase == s.phase
  {
    hide Recorded, SessionEnded, Forgot, RegisteredIds;
    hide DoClean, DoDeliver, DoWake, DoPrune, DoFail, DoBrokerError, DoExit;
    hide AckTargets, Lists, Woken, Overrun, Disposed;
  }

  lemma {:induction false} InHandTraced(states: seq<State>, steps: seq<Step>, i: nat)
    requires IsRun(states, steps) && i < |states|
    ensures |states| == |steps| + 1 && InHand(states, steps, i, states[i].phase)
  {
    hide IsRun, Next, Enabled;
    RunSize(states, steps);
    if i > 0 && HoldsMessage(states[i].phase) {
      InHandTraced(states, steps, i - 1);
      RunStep(states, steps, i - 1);
      HandMoves(states[i - 1], steps[i - 1]);
      hide HandMove, InHand;
      HandTraced(states, steps, i);
    }
  }

  lemma HandTraced(states: seq<State>, steps: seq<Step>, i: nat)
    requires 0 < i <= |steps| && |states| == |steps| + 1
    requires HoldsMessage(states[i].phase) && InHand(states, steps, i - 1, states[i - 1].phase)
    requires HandMove(states[i - 1], steps[i - 1], states[i].phase)
    ensures InHand(states, steps, i, states[i].phase)
  {
    var s, e, p := states[i - 1], steps[i - 1], states[i].phase;
    if p == s.phase {
      InHandLater(states, steps, i, p);
    } else if e.Io? && e.i.Arrive? && p.m == Incoming(s, e.i.dest, e.i.sub, e.i.msgId, e.i.ackId) {
      assert ArrivedAt(states, steps, i - 1, p.m);
      assert !p.Collecting? ==> LookedUpAt(states, steps, i - 1, i - 1, p.m);
    } else if e == Io(Collect) && s.phase.Collecting? {
      var a :| 0 <= a < i - 1 && ArrivedAt(states, steps, a, s.phase.m);
      assert LookedUpAt(states, steps, a, i - 1, p.m);
    } else {
      InHandLater(states, steps, i, Delivering(s.phase.m));
    }
  }

  /** What happened before stays so. */
  lemma InHandLater(states: seq<State>, steps: seq<Step>, i: nat, p: Phase)
    requires 0 < i <= |steps| && |states| == |steps| + 1 && InHand(states, steps, i - 1, p)
    ensures InHand(states, steps, i, p)
  {
    hide ArrivedAt, LookedUpAt;
  }

  // ---------------------------------------------------------------- accepted messages

  /** From its arrival `a`, over the last look-up `l`, to the pass `d` that `id` accepted it in. */
  predicate CameBy(states: seq<State>, steps: seq<Step>, a: nat, l: nat, d: nat, id: SubId, m: Message)
    requires a <= l < d < |steps| && |states| == |steps| + 1
  {
    LookedUpAt(states, steps, a, l, m) && DeliveredAt(states, steps, d, id, m)
  }

  ghost predicate Traced(states: seq<State>, steps: seq<Step>, i: nat, id: SubId, m: Message)
    requires i <= |steps| && |states| == |steps| + 1
  {
    exists a, l, d | 0 <= a <= l < d < i :: CameBy(states, steps, a, l, d, id, m)
  }

  /** A step adds to what a subscription accepted at most the message in hand, in a delivery pass routed to it. */
  predicate AcceptMove(s: State, e: Step, id: SubId, now: seq<Message>) {
    var before := if id in s.reg.subs then s.reg.subs[id].accepted else [];
    || now == before
    || (e.Io? && e.i.Deliver? && s.phase.Delivering? && Target(s.reg, s.phase.m, id) && now == before + [s.phase.m])
  }

  lemma AcceptMoves(s: State, e: Step, id: SubId)
    requires Enabled(s, e) && Sound(s) && id in Next(s, e).reg.subs
    ensures AcceptMove(s, e, id, Next(s, e).reg.subs[id].accepted)
  {
    hide Sound, AppNext, TaskNext, AppEnabled, TaskEnabled, RegGood, HistoryPart, PhaseGood;
    SoundParts(s);
    match e {
      case App(a) =>
        AppHistories(s, a);
      case Io(i) =>
        TaskHistories(s, i);
        if i.Deliver? {
          PassAccepts(s, i, id);
        }
      case Net(n) =>
    }
  }

  lemma PassAccepts(s: State, e: TaskStep, id: SubId)
    requires TaskEnabled(s, e) && e.Deliver? && RegGood(s.reg) && PhaseGood(s) && HistoryPart(s)
    requires id in TaskNext(s, e).reg.subs
    ensures AcceptMove(s, Io(e), id, TaskNext(s, e).reg.subs[id].accepted)
  {
    var m := s.phase.m;
    InFlightOf(s, m);
    hide Histories, RegGood, Lists, Woken, Overrun, DoDeliver, Target, PhaseGood, NothingAnywhere;
    PassTakes(s.reg, m, e.woken, id);
  }

  lemma InFlightOf(s: State, m: Message)
    requires PhaseGood(s) && s.phase == Delivering(m)
    ensures m.session == s.session
  {
  }

  lemma PassTakes(r: Reg, m: Message, woken: seq<SubId>, id: SubId)
    requires RegGood(r) && Histories(r, m.session, m.serial)
    ensures id in DoDeliver(r, m, woken).subs <==> id in r.subs
    ensures id in r.subs ==>
              var now := DoDeliver(r, m, woken).subs[id].accepted;
              now == r.subs[id].accepted || (Target(r, m, id) && now == r.subs[id].accepted + [m])
  {
    hide Histories, RegGood, DoDeliver, Target;
    DeliverHistories(r, m, woken, m.serial);
    DeliverModes(r, m, woken, id);
  }

  /** Every accepted message arrived, was last looked up, and was delivered, in this order. */
  lemma {:induction false} AcceptedTraced(states: seq<State>, steps: seq<Step>, i: nat, id: SubId, n: nat)
    requires IsRun(states, steps) && i < |states|
    requires id in states[i].reg.subs && n < |states[i].reg.subs[id].accepted|
    ensures |states| == |steps| + 1
    ensures Traced(states, steps, i, id, states[i].reg.subs[id].accepted[n])
  {
    hide IsRun, Next, Enabled, Sound, Traced, AcceptMove, InHand, INIT;
    RunSize(states, steps);
    if i == 0 {
      NoneAtFirst(states[0], id);
    } else {
      RunSound(states, steps, i - 1);
      RunStep(states, steps, i - 1);
      AcceptMoves(states[i - 1], steps[i - 1], id);
      var now := states[i].reg.subs[id].accepted;
      AcceptKept(states[i - 1], steps[i - 1], id, now);
      if id in states[i - 1].reg.subs && n < |states[i - 1].reg.subs[id].accepted| {
        AcceptedTraced(states, steps, i - 1, id, n);
        TracedLater(states, steps, i, id, now[n]);
      } else {
        InHandTraced(states, steps, i - 1);
        PassTraced(states, steps, i, id, now[n]);
      }
    }
  }

  lemma NoneAtFirst(s: State, id: SubId)
    requires s == INIT
    ensures id !in s.reg.subs
  {
  }

  /** Old ones keep their places; a new one is the message in hand. */
  lemma AcceptKept(s: State, e: Step, id: SubId, now: seq<Message>)
    requires AcceptMove(s, e, id, now)
    ensures id in s.reg.subs ==> s.reg.subs[id].accepted <= now
    ensures forall n | 0 <= n < |now| && (id in s.reg.subs ==> |s.reg.subs[id].accepted| <= n) ::
              e.Io? && e.i.Deliver? && s.phase == Delivering(now[n]) && Target(s.reg, now[n], id)
  {
  }

  lemma TracedLater(states: seq<State>, steps: seq<Step>, i: nat, id: SubId, m: Message)
    requires 0 < i <= |steps| && |states| == |steps| + 1 && Traced(states, steps, i - 1, id, m)
    ensures Traced(states, steps, i, id, m)
  {
    hide CameBy;
  }

  lemma PassTraced(states: seq<State>, steps: seq<Step>, i: nat, id: SubId, m: Message)
    requires 0 < i <= |steps| && |states| == |steps| + 1 && InHand(states, steps, i - 1, Delivering(m))
    requires DeliveredAt(states, steps, i - 1, id, m)
    ensures Traced(states, steps, i, id, m)
  {
    hide DeliveredAt, LookedUpAt;
    var a, l :| 0 <= a <= l < i - 1 && LookedUpAt(states, steps, a, l, m);
    assert CameBy(states, steps, a, l, i - 1, id, m);
  }

  // ---------------------------------------------------------------- one arrival per serial

  lemma {:induction false} SerialsGrow(states: seq<State>, steps: seq<Step>, i: nat, j: nat)
    requires IsRun(states, steps) && i <= j < |states|
    ensures states[i].nextSerial <= states[j].nextSerial
    decreases j
  {
    hide IsRun, Next, Enabled;
    RunSize(states, steps);
    if i < j {
      SerialsGrow(states, steps, i, j - 1);
      RunStep(states, steps, j - 1);
      SerialStep(states[j - 1], steps[j - 1]);
    }
  }

  lemma SerialStep(s: State, e: Step)
    requires Enabled(s, e)
    ensures Next(s, e).nextSerial == s.nextSerial + if e.Io? && e.i.Arrive? then 1 else 0
  {
    match e {
      case App(a) =>
        AppFrame(s, a);
        hide AppNext;
      case Io(i) =>
        hide Recorded, SessionEnded, Forgot, RegisteredIds;
        hide DoClean, DoDeliver, DoWake, DoPrune, DoFail, DoBrokerError, DoExit;
        hide AckTargets, Lists, Woken, Overrun, Disposed;
      case Net(n) =>
    }
  }

  /** A serial tells its arrival. */
  lemma OneArrival(states: seq<State>, steps: seq<Step>, a: nat, b: nat)
    requires IsRun(states, steps) && a < |steps| && b < |steps| && |states| == |steps| + 1
    requires steps[a].Io? && steps[a].i.Arrive? && steps[b].Io? && steps[b].i.Arrive?
    requires states[a].nextSerial == states[b].nextSerial
    ensures a == b
  {
    hide Next, Enabled;
    if a < b {
      RunStep(states, steps, a);
      SerialStep(states[a], steps[a]);
      SerialsGrow(states, steps, a + 1, b);
    } else if b < a {
      RunStep(states, steps, b);
      SerialStep(states[b], steps[b]);
      SerialsGrow(states, steps, b + 1, a);
    }
  }
}
