/** What the client promises its callers, over every run and every interleaving. */
module Promises {
  import opened Lane
  import opened Entry
  import opened Types
  import opened Registry
  import opened History
  import opened Ledger
  import opened Wire
  import opened Client
  import opened Invariant
  import opened Delivery
  import opened Acks
  import opened Runs

  // ---------------------------------------------------------------- what a consumer sees

  /**
   * An `auto` subscription, over any number of reconnects: received, then
   * channel, then overflow queue is exactly what was accepted, in order, while
   * it is registered; and what was received is always a prefix of it.
   */
  lemma AutoInOrder(states: seq<State>, steps: seq<Step>, i: nat, id: SubId)
    requires IsRun(states, steps) && i < |states|
    requires id in states[i].reg.subs && states[i].reg.subs[id].mode == Auto
    ensures var sub := states[i].reg.subs[id];
            && sub.received <= sub.accepted
            && (sub.registered ==> sub.received + (sub.lane.channel + sub.lane.queue) == sub.accepted)
            && (forall a, b | 0 <= a < b < |sub.received| :: sub.received[a].serial < sub.received[b].serial)
  {
    RunSound(states, steps, i);
    var sub := states[i].reg.subs[id];
    hide Good, BookBacked, AllRecorded, HandlerGood, NamedOnce, CursorGood, IsRun;
    assert HistoryGood(sub, states[i].session, DeliveryBound(states[i]));
    assert sub.received <= View(sub);
    forall a | 0 <= a < |sub.received|
      ensures sub.received[a] == View(sub)[a]
    {
    }
  }

  /**
   * In the client modes what was received of each session is a prefix of what
   * that session accepted, and sessions come in order. While the subscription
   * is registered nothing of the current session is missing: received, channel
   * and overflow queue together hold all of it.
   */
  lemma ClientSessionsInOrder(states: seq<State>, steps: seq<Step>, i: nat, id: SubId, past: nat)
    requires IsRun(states, steps) && i < |states|
    requires id in states[i].reg.subs && states[i].reg.subs[id].mode != Auto
    ensures var sub := states[i].reg.subs[id];
            && Of(sub.received, past) <= Of(sub.accepted, past)
            && (forall a, b | 0 <= a < b < |sub.received| ::
                  sub.received[a].serial < sub.received[b].serial && sub.received[a].session <= sub.received[b].session)
            && (sub.registered ==>
                  Of(sub.received + (sub.lane.channel + sub.lane.queue), states[i].session)
                    == Of(sub.accepted, states[i].session))
  {
    RunSound(states, steps, i);
    var sub := states[i].reg.subs[id];
    hide Good, BookBacked, AllRecorded, HandlerGood, NamedOnce, CursorGood, IsRun;
    assert HistoryGood(sub, states[i].session, DeliveryBound(states[i]));
    assert sub.received <= View(sub);
    OfPrefix(sub.received, View(sub), past);
    assert Of(sub.received, past) <= Of(View(sub), past) <= Of(sub.accepted, past);
    forall a | 0 <= a < |sub.received|
      ensures sub.received[a] == View(sub)[a]
    {
    }
  }

  /**
   * From the moment a connection is in use nothing is parked for a registered
   * client-mode subscription that an earlier session sent: an acknowledgement
   * of it would name a message this session does not know.
   */
  lemma ParkedIsCurrent(states: seq<State>, steps: seq<Step>, i: nat, id: SubId, n: nat)
    requires IsRun(states, steps) && i < |states| && Serving(states[i].phase)
    requires Acking(states[i].reg, id) && n < |states[i].reg.subs[id].lane.queue|
    ensures states[i].reg.subs[id].lane.queue[n].session == states[i].session
  {
    RunSound(states, steps, i);
    hide IsRun, Good, Delivered, NamedOnce, CursorGood;
    assert ParkedCurrent(states[i].reg.subs[id], states[i].session);
  }

  // ---------------------------------------------------------------- wakeups, ends and leaks

  /** Between any two sections every subscription with something parked is on the wake list, once. */
  lemma NoLostWakeup(states: seq<State>, steps: seq<Step>, i: nat, id: SubId)
    requires IsRun(states, steps) && i < |states| && Waiting(states[i].reg.subs, id)
    ensures exists n :: 0 <= n < |states[i].reg.parked| && states[i].reg.parked[n] == id
    ensures forall a, b | 0 <= a < b < |states[i].reg.parked| :: states[i].reg.parked[a] != states[i].reg.parked[b]
  {
    RunSound(states, steps, i);
    hide IsRun, PhaseGood, LedgerPart, WireGood, ReceiptsGood, OpsPart, Delivered, NamedOnce, CursorGood, Waiting;
  }

  /**
   * A subscription is registered only while no end was recorded; off the
   * registry with its receiver still there, its end is recorded, so a handle
   * that sees the stream end knows why. An id failed at its overflow limit is
   * never registered.
   */
  lemma EndBeforeSilence(states: seq<State>, steps: seq<Step>, i: nat, id: SubId)
    requires IsRun(states, steps) && i < |states| && id in states[i].reg.subs
    ensures var sub := states[i].reg.subs[id];
            && (sub.registered ==> sub.ended == Running)
            && (!sub.registered && sub.lane.open ==> sub.ended.Ended?)
            && (id in states[i].reg.failedIds ==> !sub.registered)
  {
    RunSound(states, steps, i);
    hide IsRun, PhaseGood, LedgerPart, WireGood, ReceiptsGood, OpsPart, Delivered, NamedOnce, CursorGood, WakeGood;
    assert SubGood(states[i].reg.subs[id]);
  }

  /** The first end recorded stays, and a subscription off the registry never comes back. */
  lemma FirstEndStays(states: seq<State>, steps: seq<Step>, i: nat, j: nat, id: SubId)
    requires IsRun(states, steps) && i <= j < |states| && id in states[i].reg.subs
    ensures id in states[j].reg.subs
    ensures states[i].reg.subs[id].ended.Ended? ==> states[j].reg.subs[id].ended == states[i].reg.subs[id].ended
    ensures !states[i].reg.subs[id].registered ==> !states[j].reg.subs[id].registered
  {
    RunFollows(states, steps, i, j);
    hide IsRun, BookKept, AnswersKept, WireKept;
    assert SubEvolves(states[i].reg.subs[id], states[j].reg.subs[id]);
  }

  /** An `auto` subscription never has a pending queue, nor does an id that was never given out. */
  lemma PendingOnlyForClientModes(states: seq<State>, steps: seq<Step>, i: nat, id: SubId)
    requires IsRun(states, steps) && i < |states| && id in states[i].ledger.pending
    ensures id in states[i].reg.subs && states[i].reg.subs[id].mode != Auto
  {
    RunSound(states, steps, i);
    hide IsRun, RegGood, PhaseGood, WireGood, ReceiptsGood, OpsPart, NamedOnce, CursorGood, AllRecorded, HandlerGood;
    PendingBacked(states[i], id);
  }

  /**
   * The sweep leaves queues only for ids registered at the delivery pass
   * before it, and leaves the queue of every registered subscription alone.
   */
  lemma {:induction false} SweepExact(states: seq<State>, steps: seq<Step>, i: nat)
    requires IsRun(states, steps) && i < |steps| && steps[i] == Io(Sweep)
    ensures exists d | 0 <= d < i ::
              && LastDelivery(steps, d, i)
              && states[i + 1].ledger.pending.Keys <= RegisteredIds(states[d + 1].reg)
    ensures forall id | id in states[i].ledger.pending && Registered(states[i].reg, id) ::
              id in states[i + 1].ledger.pending && states[i + 1].ledger.pending[id] == states[i].ledger.pending[id]
  {
    RunSound(states, steps, i);
    var s := states[i];
    assert Enabled(s, steps[i]) && states[i + 1] == Next(s, steps[i]);
    assert HandlerGood(s);
    assert states[i + 1] == DoSweep(s, s.phase.live, s.phase.failed);
    hide IsRun, Sound, Next, Enabled;
    LiveIsRegistered(states, steps, i);
    SweepKeeps(s, s.phase.live, s.phase.failed);
    hide DoSweep, RegisteredIds, HandlerGood;
  }

  lemma SweepKeeps(s: State, live: set<SubId>, failed: seq<SubId>)
    requires s.phase == Sweeping(live, failed) && HandlerGood(s)
    ensures DoSweep(s, live, failed).ledger.pending.Keys <= live
    ensures forall id | id in s.ledger.pending && Registered(s.reg, id) ::
              id in DoSweep(s, live, failed).ledger.pending
              && DoSweep(s, live, failed).ledger.pending[id] == s.ledger.pending[id]
  {
  }

  /** Step `d` is a delivery pass, and up to `i` the I/O task took no step since. */
  predicate LastDelivery(steps: seq<Step>, d: nat, i: nat)
    requires d < i <= |steps|
  {
    && steps[d].Io? && steps[d].i.Deliver?
    && forall k | d < k < i :: !steps[k].Io?
  }

  /** The set the sweep goes by is what the delivery pass found registered. */
  lemma {:induction false} LiveIsRegistered(states: seq<State>, steps: seq<Step>, i: nat)
    requires IsRun(states, steps) && i < |states| && states[i].phase.Sweeping?
    ensures exists d | 0 <= d < i ::
              LastDelivery(steps, d, i) && states[i].phase.live == RegisteredIds(states[d + 1].reg)
  {
    hide IsRun, Next, Enabled, RegisteredIds;
    NotSweepingAtFirst(states, steps);
    if i > 0 {
      RunStep(states, steps, i - 1);
      SweepingSince(states[i - 1], steps[i - 1]);
      if states[i - 1].phase.Sweeping? {
        LiveIsRegistered(states, steps, i - 1);
        var d: nat :| d < i - 1 && LastDelivery(steps, d, i - 1)
                   && states[i - 1].phase.live == RegisteredIds(states[d + 1].reg);
        assert LastDelivery(steps, d, i);
      } else {
        assert LastDelivery(steps, i - 1, i);
      }
    }
  }

  lemma NotSweepingAtFirst(states: seq<State>, steps: seq<Step>)
    requires IsRun(states, steps)
    ensures |states| == |steps| + 1 && !states[0].phase.Sweeping?
  {
    hide Next, Enabled;
  }

  lemma SweepingSince(s: State, e: Step)
    requires Enabled(s, e) && Next(s, e).phase.Sweeping?
    ensures if s.phase.Sweeping? then !e.Io? && Next(s, e).phase == s.phase
            else e.Io? && e.i.Deliver? && Next(s, e).phase.live == RegisteredIds(Next(s, e).reg)
  {
    hide AppNext, TaskNext;
    match e {
      case App(a) => AppFrame(s, a);
      case Io(i) => TaskSweeping(s, i);
      case Net(n) =>
    }
  }

  lemma TaskSweeping(s: State, e: TaskStep)
    requires TaskEnabled(s, e)
    ensures TaskNext(s, e).phase.Sweeping? ==>
              e.Deliver? && !s.phase.Sweeping? && TaskNext(s, e).phase.live == RegisteredIds(TaskNext(s, e).reg)
  {
    hide Recorded, SessionEnded, Forgot, RegisteredIds;
    hide DoClean, DoDeliver, DoWake, DoPrune, DoFail, DoBrokerError;
    hide DoExit, AckTargets, Lists, Woken, Overrun, Disposed;
  }

  // ---------------------------------------------------------------- broker errors

  /** How many ERRORs about `dest` the first `i` steps handled. */
  function ErrorsBefore(steps: seq<Step>, i: nat, dest: Dest): nat
    requires i <= |steps|
  {
    if i == 0 then 0
    else ErrorsBefore(steps, i - 1, dest) + if ErrorAbout(steps[i - 1], dest) then 1 else 0
  }

  predicate ErrorAbout(e: Step, dest: Dest) {
    e.Io? && e.i.BrokerError? && e.i.dead == dest
  }

  lemma ErrorMoves(s: State, e: Step, dest: Dest)
    requires Enabled(s, e)
    ensures ErrorCount(Next(s, e).reg, dest) == ErrorCount(s.reg, dest) + if ErrorAbout(e, dest) then 1 else 0
  {
    match e {
      case App(a) =>
        AppErrors(s, a);
        hide AppNext;
      case Io(i) =>
        if i.BrokerError? {
        } else {
          TaskErrors(s, i);
          hide TaskNext;
        }
      case Net(n) =>
    }
  }

  lemma AppErrors(s: State, e: AppStep)
    requires AppEnabled(s, e)
    ensures AppNext(s, e).reg.errors == s.reg.errors
  {
    hide Settled, Forgot, Find, RemovedFor, AfterClose, AfterReceive;
  }

  lemma TaskErrors(s: State, e: TaskStep)
    requires TaskEnabled(s, e) && !e.BrokerError?
    ensures TaskNext(s, e).reg.errors == s.reg.errors
  {
    match e {
      case Arrive(dest, sub, msgId, ackId) =>
        hide AckTargets;
      case Collect =>
        hide AckTargets;
      case Record =>
        hide Recorded;
      case _ => OtherErrors(s, e);
    }
  }

  lemma OtherErrors(s: State, e: TaskStep)
    requires TaskEnabled(s, e) && !e.BrokerError? && !e.Arrive? && !e.Collect? && !e.Record?
    ensures TaskNext(s, e).reg.errors == s.reg.errors
  {
    hide SessionEnded, Forgot, RegisteredIds, Pruned, Without, AfterOffer, AfterDrain, AfterClean, RemovedFor;
    hide Lists, Woken, Overrun, Disposed, Drained, Target;
  }

  lemma {:induction false} ErrorsCounted(states: seq<State>, steps: seq<Step>, i: nat, dest: Dest)
    requires IsRun(states, steps) && i < |states| == |steps| + 1
    ensures ErrorCount(states[i].reg, dest) == ErrorsBefore(steps, i, dest) + 1
  {
    hide IsRun, Next, Enabled, ErrorCount;
    NoErrorsAtFirst(states, steps, dest);
    if i > 0 {
      ErrorsCounted(states, steps, i - 1, dest);
      RunStep(states, steps, i - 1);
      ErrorMoves(states[i - 1], steps[i - 1], dest);
    }
  }

  lemma NoErrorsAtFirst(states: seq<State>, steps: seq<Step>, dest: Dest)
    requires IsRun(states, steps)
    ensures |states| > 0 && ErrorCount(states[0].reg, dest) == 1
  {
    hide Next, Enabled;
  }

  /**
   * Over any run the first two ERRORs about a destination end nothing, and
   * each from the third on ends every subscription then registered to it, with
   * the broker's message, and no other.
   */
  lemma ThirdErrorEnds(states: seq<State>, steps: seq<Step>, i: nat, dest: Dest, message: string, id: SubId)
    requires IsRun(states, steps) && i < |steps| && |states| == |steps| + 1
    requires steps[i] == Io(BrokerError(dest, message)) && id in states[i].reg.subs
    ensures id in states[i + 1].reg.subs
    ensures var sub, n := states[i].reg.subs[id], states[i + 1].reg.subs[id];
            if sub.registered && sub.dest == dest && ErrorsBefore(steps, i, dest) >= 2
            then !n.registered && n.ended == Ended(Abandoned(message))
            else n == sub
  {
    hide IsRun, Next, Enabled, ErrorCount, ErrorsBefore;
    ErrorsCounted(states, steps, i, dest);
    RunStep(states, steps, i);
    RunSound(states, steps, i);
    SoundParts(states[i]);
    ErrorStep(states[i], dest, message);
    hide Sound, RegGood, DoBrokerError;
    ThirdErrorAbandons(states[i].reg, dest, message, id);
    ErrorKeepsIds(states[i].reg, dest, message, id);
  }

  lemma ErrorStep(s: State, dest: Dest, message: string)
    requires Enabled(s, Io(BrokerError(dest, message)))
    ensures Next(s, Io(BrokerError(dest, message))).reg == DoBrokerError(s.reg, dest, message)
  {
  }

  lemma ErrorKeepsIds(r: Reg, dest: Dest, message: string, id: SubId)
    ensures id in DoBrokerError(r, dest, message).subs <==> id in r.subs
  {
  }

  // ---------------------------------------------------------------- the end of the task

  /** Step `x` is the task's exit, and up to `i` nothing else the task did came after. */
  predicate ExitedAt(steps: seq<Step>, x: nat, i: nat)
    requires x < i <= |steps|
  {
    steps[x] == Io(Exit) && forall k | x < k < i :: !steps[k].Io?
  }

  /** The task is done only by its one exit, and then does nothing more. */
  lemma DoneMoves(s: State, e: Step)
    requires Enabled(s, e) && Next(s, e).phase.Done?
    ensures if s.phase.Done? then !e.Io? && Next(s, e).phase == s.phase
            else e == Io(Exit) && Next(s, e).reg == DoExit(s.reg) && Next(s, e).phase.horizon == s.reg.nextId
  {
    match e {
      case App(a) =>
        AppFrame(s, a);
        hide AppNext;
      case Io(i) => TaskDone(s, i);
      case Net(n) =>
    }
  }

  lemma TaskDone(s: State, e: TaskStep)
    requires TaskEnabled(s, e) && TaskNext(s, e).phase.Done?
    ensures !s.phase.Done? && e.Exit?
  {
    hide Recorded, SessionEnded, Forgot, RegisteredIds;
    hide DoClean, DoDeliver, DoWake, DoPrune, DoFail, DoBrokerError, DoExit;
    hide AckTargets, Lists, Woken, Overrun, Disposed;
  }

  lemma NotDoneAtFirst(states: seq<State>, steps: seq<Step>)
    requires IsRun(states, steps)
    ensures |states| == |steps| + 1 && !states[0].phase.Done?
  {
    hide Next, Enabled;
  }

  lemma {:induction false} DoneByExit(states: seq<State>, steps: seq<Step>, i: nat)
    requires IsRun(states, steps) && i < |states| == |steps| + 1 && states[i].phase.Done?
    ensures exists x | 0 <= x < i ::
              && ExitedAt(steps, x, i)
              && states[x + 1].reg == DoExit(states[x].reg) && states[i].phase.horizon == states[x].reg.nextId
  {
    hide IsRun, Next, Enabled, DoExit;
    NotDoneAtFirst(states, steps);
    if i > 0 {
      RunStep(states, steps, i - 1);
      DoneMoves(states[i - 1], steps[i - 1]);
      if states[i - 1].phase.Done? {
        DoneByExit(states, steps, i - 1);
        var x: nat :| x < i - 1 && ExitedAt(steps, x, i - 1)
                   && states[x + 1].reg == DoExit(states[x].reg) && states[i - 1].phase.horizon == states[x].reg.nextId;
        assert ExitedAt(steps, x, i);
      } else {
        assert ExitedAt(steps, i - 1, i);
      }
    }
  }

  /**
   * When the task is done, every subscription registered as it exited has ended
   * because the connection closed, and none that existed then is registered.
   */
  lemma DoneMeansEnded(states: seq<State>, steps: seq<Step>, i: nat)
    requires IsRun(states, steps) && i < |states| == |steps| + 1 && states[i].phase.Done?
    ensures exists x | 0 <= x < i ::
              && ExitedAt(steps, x, i)
              && forall id | id in states[x].reg.subs ::
                   && id in states[i].reg.subs && !states[i].reg.subs[id].registered
                   && (Registered(states[x].reg, id) ==> states[i].reg.subs[id].ended == Ended(ConnectionClosed))
  {
    hide IsRun, ExitedAt, DoExit, Registered;
    DoneByExit(states, steps, i);
    var x: nat :| x < i && ExitedAt(steps, x, i) && states[x + 1].reg == DoExit(states[x].reg);
    forall id | id in states[x].reg.subs
      ensures id in states[i].reg.subs && !states[i].reg.subs[id].registered
      ensures Registered(states[x].reg, id) ==> states[i].reg.subs[id].ended == Ended(ConnectionClosed)
    {
      ExitedStays(states, steps, x, i, id);
    }
  }

  lemma ExitedStays(states: seq<State>, steps: seq<Step>, x: nat, i: nat, id: SubId)
    requires IsRun(states, steps) && x < i < |states| && states[x + 1].reg == DoExit(states[x].reg)
    requires id in states[x].reg.subs
    ensures id in states[i].reg.subs && !states[i].reg.subs[id].registered
    ensures Registered(states[x].reg, id) ==> states[i].reg.subs[id].ended == Ended(ConnectionClosed)
  {
    hide IsRun, Sound, DoExit, RegGood;
    RunSound(states, steps, x);
    SoundParts(states[x]);
    ExitTellsAll(states[x].reg, id);
    ExitKeepsIds(states[x].reg, id);
    FirstEndStays(states, steps, x + 1, i, id);
  }

  lemma ExitKeepsIds(r: Reg, id: SubId)
    ensures id in DoExit(r).subs <==> id in r.subs
    ensures id in r.subs ==> !DoExit(r).subs[id].registered
  {
  }
}
