/** What a wake-up does, over every run: parked frames move up as far as they can, and a dead entry goes. */
module Waking {
  import opened Lane
  import opened Types
  import opened Registry
  import opened Client
  import opened Invariant
  import opened Delivery
  import opened Acks
  import opened Runs

  /** An entry whose receiver is there, before and after a wake-up that found room in its channel. */
  predicate MovedUp(sub: Sub, n: Sub) {
    && n.registered && n.lane.open
    && n.lane.channel + n.lane.queue == sub.lane.channel + sub.lane.queue
    && sub.lane.channel <= n.lane.channel
    && (n.lane.queue == [] || |n.lane.channel| == n.lane.capacity)
    && (sub.lane.queue != [] ==> |n.lane.queue| < |sub.lane.queue|)
    && n.(lane := sub.lane) == sub && (n.lane.capacity, n.lane.limit) == (sub.lane.capacity, sub.lane.limit)
  }

  lemma DrainMoves(sub: Sub)
    requires SubGood(sub) && sub.registered && sub.lane.open
    requires |sub.lane.channel| < sub.lane.capacity
    ensures MovedUp(sub, AfterDrain(sub))
  {
    DrainedKeepsOrder(sub.lane);
    if sub.lane.queue != [] {
      DrainShrinks(sub.lane);
    }
    hide Drained, Logged;
  }

  lemma DrainShrinks<T>(l: Lane<T>)
    requires Sized(l) && l.open && l.queue != [] && |l.channel| < l.capacity
    ensures |Drained(l).0.queue| < |l.queue|
  {
    var next := l.(channel := l.channel + [l.queue[0]], queue := l.queue[1..]);
    assert Drained(l) == Drained(next);
    DrainedKeepsOrder(l);
    DrainedKeepsOrder(next);
    hide Drained;
    var d := Drained(next).0;
    assert |Contents(d)| == |Contents(l)| && |next.channel| <= |d.channel|;
  }

  lemma WakeMoves(s: State, id: SubId, k: SubId)
    requires TaskEnabled(s, Wake(id)) && RegGood(s.reg) && k in s.reg.subs
    ensures var sub, n := s.reg.subs[k], TaskNext(s, Wake(id));
            && k in n.reg.subs
            && (k != id || !sub.registered ==> n.reg.subs[k] == sub)
            && (k == id && sub.registered && sub.lane.open ==> MovedUp(sub, n.reg.subs[k]) && n.phase.Idle?)
            && (k == id && sub.registered && !sub.lane.open && sub.lane.queue != [] ==>
                  !n.reg.subs[k].registered && n.phase == Unpending(id))
  {
    var sub := s.reg.subs[k];
    assert SubGood(sub);
    if k == id && sub.registered {
      DrainedKeepsOrder(sub.lane);
      if sub.lane.open {
        DrainMoves(sub);
      }
    }
    hide MovedUp, Drained, SubGood, Pruned, WakeGood;
  }

  /**
   * Over every run: a wake-up of a registered subscription whose receiver is
   * there moves parked frames to the channel, in order, at least one when any
   * is parked, until none is left or the channel is full; and the subscription
   * is on the wake list afterwards exactly when some are left. No other
   * subscription changes.
   */
  lemma WakeUpMoves(states: seq<State>, steps: seq<Step>, i: nat, id: SubId, k: SubId)
    requires IsRun(states, steps) && i < |steps| && |states| == |steps| + 1
    requires steps[i] == Io(Wake(id)) && k in states[i].reg.subs
    ensures id in states[i].reg.subs && k in states[i + 1].reg.subs
    ensures k != id ==> states[i + 1].reg.subs[k] == states[i].reg.subs[k]
    ensures Registered(states[i].reg, id) && states[i].reg.subs[id].lane.open ==>
              && MovedUp(states[i].reg.subs[id], states[i + 1].reg.subs[id])
              && (id in states[i + 1].reg.parked <==> states[i + 1].reg.subs[id].lane.queue != [])
  {
    hide IsRun, Sound, MovedUp, RegGood, TaskNext, HistoryPart, LedgerPart, OpsPart, PhaseGood, Pruned;
    RunStep(states, steps, i);
    RunSound(states, steps, i);
    SoundParts(states[i]);
    WakeMoves(states[i], id, k);
    WakeMoves(states[i], id, id);
    WakeList(states[i], id);
    if Registered(states[i].reg, id) && states[i].reg.subs[id].lane.open {
      MovedRegistered(states[i].reg.subs[id], states[i + 1].reg.subs[id]);
    }
  }

  lemma MovedRegistered(sub: Sub, n: Sub)
    requires MovedUp(sub, n)
    ensures n.registered
  {
  }

  lemma WakeList(s: State, id: SubId)
    requires TaskEnabled(s, Wake(id)) && RegGood(s.reg)
    ensures var n := TaskNext(s, Wake(id)).reg; forall k :: k in n.parked <==> Waiting(n.subs, k)
  {
    WakeKeeps(s.reg, id);
    hide DoWake, RegGood, Waiting, Drained;
  }

  /**
   * A wake-up that finds the receiver gone and something parked takes the
   * subscription off the registry, and the I/O task's next step forgets what
   * was pending for it.
   */
  lemma WakeUpBuries(states: seq<State>, steps: seq<Step>, i: nat, u: nat, id: SubId)
    requires IsRun(states, steps) && i < u < |steps| && |states| == |steps| + 1
    requires steps[i] == Io(Wake(id)) && Registered(states[i].reg, id)
    requires !states[i].reg.subs[id].lane.open && states[i].reg.subs[id].lane.queue != []
    requires steps[u].Io? && forall k | i < k < u :: !steps[k].Io?
    ensures id in states[i + 1].reg.subs && !states[i + 1].reg.subs[id].registered
    ensures id !in states[u + 1].ledger.pending
  {
    hide IsRun, Sound, MovedUp, RegGood, TaskNext, HistoryPart, LedgerPart, OpsPart, PhaseGood;
    RunStep(states, steps, i);
    RunSound(states, steps, i);
    SoundParts(states[i]);
    WakeMoves(states[i], id, id);
    PhaseWaitsOn(states, steps, i + 1, u);
    RunStep(states, steps, u);
    UnpendForgets(states[u], steps[u].i, id);
  }

  /** The I/O task stays where it is while it takes no step. */
  lemma {:induction false} PhaseWaitsOn(states: seq<State>, steps: seq<Step>, i: nat, j: nat)
    requires IsRun(states, steps) && i <= j < |states| == |steps| + 1 && forall k | i <= k < j :: !steps[k].Io?
    ensures states[j].phase == states[i].phase
    decreases j
  {
    hide IsRun, Next, Enabled;
    if i < j {
      PhaseWaitsOn(states, steps, i, j - 1);
      RunStep(states, steps, j - 1);
      OthersLeavePhase(states[j - 1], steps[j - 1]);
    }
  }

  lemma OthersLeavePhase(s: State, e: Step)
    requires Enabled(s, e) && !e.Io?
    ensures Next(s, e).phase == s.phase
  {
    match e {
      case App(a) =>
        AppFrame(s, a);
        hide AppNext;
      case Net(n) =>
    }
  }

  lemma UnpendForgets(s: State, e: TaskStep, id: SubId)
    requires TaskEnabled(s, e) && s.phase == Unpending(id)
    ensures id !in TaskNext(s, e).ledger.pending
  {
    hide Lists, Woken, Overrun;
  }

  /**
   * And such a wake-up can always come: between two items of work, whenever
   * something is parked for a registered subscription and its channel has room
   * or its receiver is gone.
   */
  lemma WakeUpReady(states: seq<State>, steps: seq<Step>, i: nat, id: SubId)
    requires IsRun(states, steps) && i < |states| && states[i].phase.Idle?
    requires id in states[i].reg.subs && states[i].reg.subs[id].registered
    requires states[i].reg.subs[id].lane.queue != []
    requires var lane := states[i].reg.subs[id].lane; !lane.open || |lane.channel| < lane.capacity
    ensures Enabled(states[i], Io(Wake(id)))
  {
    hide IsRun, Sound, PhaseGood, LedgerPart, OpsPart, HistoryPart, NamedOnce;
    RunSound(states, steps, i);
    SoundParts(states[i]);
    assert Waiting(states[i].reg.subs, id);
  }
}
