/** What each section does to the registry's entries, over every run, and what no section ever takes from a consumer. */
module Entries {
  import opened Options
  import opened Lane
  import opened Entry
  import opened Types
  import opened Registry
  import opened Ledger
  import opened Wire
  import opened Halt
  import opened Client
  import opened Invariant
  import opened Delivery
  import opened Acks
  import opened Runs
  import opened Arrivals
  import opened Waking

  // ---------------------------------------------------------------- how one entry changes

  /** Off the registry, what was parked discarded; what the consumer has and can still read is left to it. */
  predicate Left(sub: Sub, n: Sub) {
    && !n.registered && n.lane.queue == []
    && n.lane.channel == sub.lane.channel && n.lane.open == sub.lane.open
    && n.received == sub.received && n.accepted == sub.accepted
    && n.dest == sub.dest && n.mode == sub.mode
  }

  /** That, with a reason, unless one was recorded before. */
  predicate LeftFor(sub: Sub, n: Sub, reason: End) {
    Left(sub, n) && n.ended == if sub.ended.Running? then Ended(reason) else sub.ended
  }

  /** The receiver is gone; all else is as it was. */
  predicate ReceiverDropped(sub: Sub, n: Sub) {
    && !n.lane.open && n.lane.channel == sub.lane.channel && n.lane.queue == sub.lane.queue
    && n.registered == sub.registered && n.ended == sub.ended
    && n.received == sub.received && n.accepted == sub.accepted && n.dest == sub.dest && n.mode == sub.mode
  }

  /** The consumer took the oldest frame of its channel. */
  predicate TookOne(sub: Sub, n: Sub) {
    && sub.lane.channel != [] && n.received + n.lane.channel == sub.received + sub.lane.channel
    && |n.received| == |sub.received| + 1
    && n.lane.queue == sub.lane.queue && n.lane.open == sub.lane.open
    && n.registered == sub.registered && n.ended == sub.ended && n.accepted == sub.accepted
    && n.dest == sub.dest && n.mode == sub.mode
  }

  /** What was parked is discarded, and nothing else. */
  predicate Unparked(sub: Sub, n: Sub) {
    && n.lane.queue == [] && n.lane.channel == sub.lane.channel && n.lane.open == sub.lane.open
    && n.registered == sub.registered && n.ended == sub.ended
    && n.received == sub.received && n.accepted == sub.accepted && n.dest == sub.dest && n.mode == sub.mode
  }

  /** A new entry: registered as asked, empty, its channel of at least one place. */
  predicate IsNew(sub: Sub, dest: Dest, mode: AckMode, limit: nat, capacity: nat) {
    && sub.registered && sub.ended == Running && sub.dest == dest && sub.mode == mode
    && sub.lane.open && sub.lane.channel == [] && sub.lane.queue == []
    && sub.lane.limit == limit && sub.lane.capacity == (if capacity == 0 then 1 else capacity)
    && sub.received == [] && sub.accepted == []
  }

  /** What a section of an application task does to the entry of `id`. */
  ghost predicate AppEntry(s: State, a: AppStep, id: SubId, n: Sub)
    requires AppEnabled(s, a) && id in s.reg.subs
  {
    var sub := s.reg.subs[id];
    match a
    case Unregister(_, who) => if id == who && sub.registered then LeftFor(sub, n, Unsubscribed) else n == sub
    case DropHandle(_, who, locked) =>
      if id == who && sub.registered && locked then LeftFor(sub, n, Unsubscribed) else n == sub
    case DropSend(t, _) => if id == s.ops[t].id then ReceiverDropped(sub, n) else n == sub
    case Cancel(t) => if s.ops[t] == Subscribing(id) then ReceiverDropped(sub, n) else n == sub
    case CloseReceiver(who) => if id == who then ReceiverDropped(sub, n) else n == sub
    case Receive(who) => if id == who then TookOne(sub, n) else n == sub
    case _ => n == sub
  }

  /** What a section of the I/O task does to it. */
  ghost predicate TaskEntry(s: State, e: TaskStep, id: SubId, n: Sub)
    requires TaskEnabled(s, e) && id in s.reg.subs
  {
    var sub := s.reg.subs[id];
    match e
    case Clean => if sub.registered && sub.mode != Auto then Unparked(sub, n) else n == sub
    case Deliver(_, _) => Served(s.phase.m, sub, n, IsFor(s.reg, s.phase.m, id))
    case Wake(who) =>
      if id != who || !sub.registered then n == sub
      else if sub.lane.open then MovedUp(sub, n)
      else if sub.lane.queue != [] then Left(sub, n) && n.ended == sub.ended
      else Unparked(sub, n)
    case BrokerError(dest, message) =>
      if sub.registered && sub.dest == dest && ErrorsSeen(s.reg, dest) >= 2 then LeftFor(sub, n, Abandoned(message))
      else n == sub
    case Exit => if sub.registered then LeftFor(sub, n, ConnectionClosed) else n == sub
    case _ => n == sub
  }

  function ErrorsSeen(r: Reg, dest: Dest): nat {
    if dest in r.errors then r.errors[dest] else 0
  }

  // ---------------------------------------------------------------- application sections

  lemma AppEntryIs(s: State, a: AppStep, id: SubId)
    requires AppEnabled(s, a) && id in s.reg.subs && RegGood(s.reg)
    ensures id in AppNext(s, a).reg.subs && AppEntry(s, a, id, AppNext(s, a).reg.subs[id])
  {
    hide RegGood, AfterReceive, AfterClose, RemovedFor, LeftFor, ReceiverDropped, TookOne, NewLane;
    hide AppNext, DoRegister, DoUnregister, DoClose, DoReceive;
    IdBelow(s.reg, id);
    AppReg(s, a);
    match a {
      case Register(_, dest, mode, limit, capacity) => RegisterSpares(s.reg, dest, mode, limit, capacity, id);
      case Unregister(_, who) =>
        RemovedLeaves(s.reg.subs[id], Unsubscribed);
        UnregisterEntry(s.reg, who, id);
      case DropHandle(_, who, _) =>
        RemovedLeaves(s.reg.subs[id], Unsubscribed);
        UnregisterEntry(s.reg, who, id);
      case DropSend(t, _) => CloseEntry(s.reg, s.ops[t].id, id);
      case Cancel(t) =>
        if s.ops[t].Subscribing? {
          CloseEntry(s.reg, s.ops[t].id, id);
        }
      case CloseReceiver(who) => CloseEntry(s.reg, who, id);
      case Receive(who) => ReceiveEntry(s.reg, who, id);
      case _ =>
    }
  }

  lemma RegisterSpares(r: Reg, dest: Dest, mode: AckMode, limit: nat, capacity: nat, id: SubId)
    requires id in r.subs && id < r.nextId
    ensures var n := DoRegister(r, dest, mode, limit, capacity); id in n.subs && n.subs[id] == r.subs[id]
  {
    hide NewLane;
  }

  lemma UnregisterEntry(r: Reg, who: SubId, id: SubId)
    requires id in r.subs
    ensures id in DoUnregister(r, who).subs
    ensures DoUnregister(r, who).subs[id]
         == if id == who && r.subs[id].registered then RemovedFor(r.subs[id], Unsubscribed) else r.subs[id]
  {
    hide RemovedFor;
  }

  lemma CloseEntry(r: Reg, who: SubId, id: SubId)
    requires id in r.subs
    ensures id in DoClose(r, who).subs
    ensures if id == who then ReceiverDropped(r.subs[id], DoClose(r, who).subs[id])
            else DoClose(r, who).subs[id] == r.subs[id]
  {
    ClosedDrops(r.subs[id]);
    hide AfterClose, ReceiverDropped;
  }

  lemma ReceiveEntry(r: Reg, who: SubId, id: SubId)
    requires id in r.subs && who in r.subs && r.subs[who].lane.channel != []
    ensures id in DoReceive(r, who).subs
    ensures if id == who then TookOne(r.subs[id], DoReceive(r, who).subs[id])
            else DoReceive(r, who).subs[id] == r.subs[id]
  {
    if id == who {
      ReceivedTakes(r.subs[id]);
    }
    hide AfterReceive, TookOne;
  }

  /** The registry after a section of an application task. */
  lemma AppReg(s: State, a: AppStep)
    requires AppEnabled(s, a)
    ensures AppNext(s, a).reg ==
              match a
              case Register(_, dest, mode, limit, capacity) => DoRegister(s.reg, dest, mode, limit, capacity)
              case Unregister(_, who) => DoUnregister(s.reg, who)
              case DropHandle(_, who, locked) => if locked then DoUnregister(s.reg, who) else s.reg
              case DropSend(t, _) => DoClose(s.reg, s.ops[t].id)
              case Cancel(t) => if s.ops[t].Subscribing? then DoClose(s.reg, s.ops[t].id) else s.reg
              case CloseReceiver(who) => DoClose(s.reg, who)
              case Receive(who) => DoReceive(s.reg, who)
              case _ => s.reg
  {
    hide DoRegister, DoClose, DoReceive, RemovedFor, Settled, Forgot, Find, Registering, HandleClosed, Deregistered;
  }

  lemma RemovedLeaves(sub: Sub, reason: End)
    ensures LeftFor(sub, RemovedFor(sub, reason), reason)
  {
  }

  lemma ClosedDrops(sub: Sub)
    ensures ReceiverDropped(sub, AfterClose(sub))
  {
  }

  lemma ReceivedTakes(sub: Sub)
    requires sub.lane.channel != []
    ensures TookOne(sub, AfterReceive(sub))
  {
    assert sub.lane.channel == [sub.lane.channel[0]] + sub.lane.channel[1..];
  }

  lemma NewEntryIs(s: State, a: AppStep)
    requires AppEnabled(s, a) && a.Register?
    ensures var n := AppNext(s, a);
            && s.reg.nextId in n.reg.subs && n.reg.nextId == s.reg.nextId + 1
            && IsNew(n.reg.subs[s.reg.nextId], a.dest, a.mode, a.limit, a.capacity)
  {
  }

  // ---------------------------------------------------------------- sections of the I/O task

  lemma TaskEntryIs(s: State, e: TaskStep, id: SubId)
    requires TaskEnabled(s, e) && id in s.reg.subs && RegGood(s.reg)
    ensures id in TaskNext(s, e).reg.subs && TaskEntry(s, e, id, TaskNext(s, e).reg.subs[id])
  {
    hide RegGood, Served, MovedUp, Lists, Woken, Overrun, Left, LeftFor, Unparked, RemovedFor, AfterClean, Pruned;
    match e {
      case Deliver(_, _) => PassServes(s, e, id);
      case Wake(who) =>
        WakeMoves(s, who, id);
        WakeOfDead(s, who);
      case Clean => CleanUnparks(s.reg.subs[id]);
      case BrokerError(dest, message) => RemovedLeaves(s.reg.subs[id], Abandoned(message));
      case Exit => RemovedLeaves(s.reg.subs[id], ConnectionClosed);
      case _ => OtherEntries(s, e);
    }
  }

  lemma CleanUnparks(sub: Sub)
    ensures sub.registered && sub.mode != Auto ==> Unparked(sub, AfterClean(sub))
    ensures !(sub.registered && sub.mode != Auto) ==> AfterClean(sub) == sub
  {
  }

  /** A wake-up on an entry whose receiver is gone. */
  lemma WakeOfDead(s: State, id: SubId)
    requires TaskEnabled(s, Wake(id))
    ensures var sub, n := s.reg.subs[id], TaskNext(s, Wake(id)).reg;
            id in n.subs && (sub.registered && !sub.lane.open ==>
              if sub.lane.queue != [] then Left(sub, n.subs[id]) && n.subs[id].ended == sub.ended
              else Unparked(sub, n.subs[id]))
  {
    hide Pruned;
  }

  lemma OtherEntries(s: State, e: TaskStep)
    requires TaskEnabled(s, e)
    requires !e.Deliver? && !e.Wake? && !e.Clean? && !e.BrokerError? && !e.Exit?
    ensures TaskNext(s, e).reg.subs == s.reg.subs
  {
    hide Recorded, SessionEnded, Forgot, RegisteredIds, Pruned, Without, AckTargets, Acking, Lists, Woken, Overrun;
    hide Disposed, Writable, Looked, TryOk, Ready;
  }

  // ---------------------------------------------------------------- over a run

  /**
   * Over every run, for every step and every subscription: what becomes of its
   * entry. It leaves the registry only by its owner, an ERROR too many, its
   * limit, a receiver that is gone, or the task's exit, and then the reason is
   * recorded; what is parked is discarded only as it leaves, or by a reconnect
   * in a client mode; its channel is added to only by a delivery or a wake-up
   * and taken from only by its consumer.
   */
  lemma EntryMoves(states: seq<State>, steps: seq<Step>, i: nat, id: SubId)
    requires IsRun(states, steps) && i < |steps| && |states| == |steps| + 1 && id in states[i].reg.subs
    ensures Enabled(states[i], steps[i]) && id in states[i + 1].reg.subs
    ensures match steps[i]
            case App(a) => AppEntry(states[i], a, id, states[i + 1].reg.subs[id])
            case Io(e) => TaskEntry(states[i], e, id, states[i + 1].reg.subs[id])
            case Net(_) => states[i + 1].reg.subs[id] == states[i].reg.subs[id]
  {
    hide IsRun, Sound, AppNext, TaskNext, AppEntry, TaskEntry, AppEnabled, TaskEnabled;
    hide RegGood, PhaseGood, LedgerPart, OpsPart, HistoryPart, NamedOnce;
    RunStep(states, steps, i);
    RunSound(states, steps, i);
    SoundParts(states[i]);
    match steps[i] {
      case App(a) => AppEntryIs(states[i], a, id);
      case Io(e) => TaskEntryIs(states[i], e, id);
      case Net(_) =>
    }
  }

  /** And a subscription is added only by a call that registers it, as that call asks, under an id never given out. */
  lemma NewEntries(states: seq<State>, steps: seq<Step>, i: nat, id: SubId)
    requires IsRun(states, steps) && i < |steps| && |states| == |steps| + 1
    requires id !in states[i].reg.subs && id in states[i + 1].reg.subs
    ensures steps[i].App? && steps[i].a.Register? && id == states[i].reg.nextId
    ensures IsNew(states[i + 1].reg.subs[id], steps[i].a.dest, steps[i].a.mode, steps[i].a.limit, steps[i].a.capacity)
  {
    hide IsRun, AppNext, TaskNext, AppEnabled, TaskEnabled, IsNew;
    RunStep(states, steps, i);
    match steps[i] {
      case App(a) =>
        if a.Register? {
          NewEntryIs(states[i], a);
          OnlyOneNew(states[i], a, id);
        } else {
          NoneNew(states[i], a, id);
        }
      case Io(e) => NoneNewByTask(states[i], e, id);
      case Net(_) =>
    }
  }

  lemma OnlyOneNew(s: State, a: AppStep, id: SubId)
    requires AppEnabled(s, a) && a.Register? && id in AppNext(s, a).reg.subs && id !in s.reg.subs
    ensures id == s.reg.nextId
  {
    hide NewLane;
  }

  lemma NoneNew(s: State, a: AppStep, id: SubId)
    requires AppEnabled(s, a) && !a.Register? && id !in s.reg.subs
    ensures id !in AppNext(s, a).reg.subs
  {
    hide Settled, Forgot, Find, Registering, HandleClosed, Deregistered, RemovedFor, AfterClose, AfterReceive;
  }

  lemma NoneNewByTask(s: State, e: TaskStep, id: SubId)
    requires TaskEnabled(s, e) && id !in s.reg.subs
    ensures id !in TaskNext(s, e).reg.subs
  {
    hide AfterOffer, AfterDrain, AfterClean, RemovedFor, Pruned, Lists, Woken, Overrun, Target;
    if e.Deliver? || e.Wake? || e.Clean? || e.BrokerError? || e.Exit? {
    } else {
      OtherEntries(s, e);
      hide TaskNext, TaskEnabled;
    }
  }

  // ---------------------------------------------------------------- nothing is taken back

  /** What the consumer took, and behind it what it can still read, is only ever added to. */
  predicate KeepsRead(sub: Sub, n: Sub) {
    sub.received + sub.lane.channel <= n.received + n.lane.channel
  }

  lemma ChangesKeepRead(sub: Sub, n: Sub, m: Message, isFor: bool)
    requires n == sub || Left(sub, n) || ReceiverDropped(sub, n) || TookOne(sub, n) || Unparked(sub, n)
          || MovedUp(sub, n) || Served(m, sub, n, isFor)
    requires MovedUp(sub, n) ==> n.received == sub.received
    ensures KeepsRead(sub, n)
  {
  }

  lemma MoveKeepsRead(states: seq<State>, steps: seq<Step>, i: nat, id: SubId)
    requires IsRun(states, steps) && i < |steps| && |states| == |steps| + 1 && id in states[i].reg.subs
    ensures id in states[i + 1].reg.subs && KeepsRead(states[i].reg.subs[id], states[i + 1].reg.subs[id])
  {
    EntryMoves(states, steps, i, id);
    var sub, n := states[i].reg.subs[id], states[i + 1].reg.subs[id];
    hide IsRun, Enabled, KeepsRead, Left, ReceiverDropped, TookOne, Unparked, Served;
    var m := if states[i].phase.Delivering? then states[i].phase.m
             else Message(None, None, None, None, 0, 0, 0);
    ChangesKeepRead(sub, n, m, IsFor(states[i].reg, m, id));
  }

  /**
   * Over any stretch of any run, reconnects and the subscription's end
   * included: what the consumer received and then its channel only grow, at the
   * back. Nothing that reached the channel is lost, overtaken or taken back.
   */
  lemma {:induction false} NothingTakenBack(states: seq<State>, steps: seq<Step>, i: nat, j: nat, id: SubId)
    requires IsRun(states, steps) && i <= j < |states| == |steps| + 1 && id in states[i].reg.subs
    ensures id in states[j].reg.subs && KeepsRead(states[i].reg.subs[id], states[j].reg.subs[id])
    decreases j
  {
    hide IsRun;
    if i < j {
      NothingTakenBack(states, steps, i, j - 1, id);
      MoveKeepsRead(states, steps, j - 1, id);
    }
  }
}
