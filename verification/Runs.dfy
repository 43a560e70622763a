/** The client's promises, over every run. */
module Runs {
  import opened Types
  import opened Registry
  import opened History
  import opened Ledger
  import opened Wire
  import opened Client
  import opened Invariant
  import opened Delivery
  import opened Acks

  // ---------------------------------------------------------------- the invariant, over runs

  ghost predicate Sound(s: State) {
    && Good(s)
    && Delivered(s)
    && NamedOnce(s.ops, s.wire.queued)
    && CursorGood(s)
    && WritingClean(s)
    && CurrentPart(s)
  }

  lemma SoundParts(s: State)
    requires Sound(s)
    ensures Good(s) && RegGood(s.reg) && PhaseGood(s) && LedgerPart(s) && OpsPart(s)
    ensures HistoryPart(s) && NamedOnce(s.ops, s.wire.queued)
  {
  }

  /** A session has begun and not yet ended for good. */
  predicate Serving(p: Phase) {
    !Early(p) && !p.Exiting? && !p.Done?
  }

  ghost predicate CurrentPart(s: State) {
    Serving(s.phase) ==> AllCurrent(s.reg, s.session)
  }

  lemma AppCurrent(s: State, e: AppStep)
    requires AppEnabled(s, e) && CurrentPart(s)
    ensures CurrentPart(AppNext(s, e))
  {
    AppFrame(s, e);
    if Serving(s.phase) {
      hide AllCurrent, Settled, Forgot, Find, DoRegister, DoUnregister, DoClose, DoReceive;
      match e {
        case Register(_, dest, mode, limit, capacity) =>
          OthersCurrent(s.reg, 0, dest, mode, limit, capacity, "", s.session);
        case Unregister(_, id) => OthersCurrent(s.reg, id, 0, Auto, 0, 0, "", s.session);
        case DropHandle(_, id, _) => OthersCurrent(s.reg, id, 0, Auto, 0, 0, "", s.session);
        case DropSend(t, _) => OthersCurrent(s.reg, s.ops[t].id, 0, Auto, 0, 0, "", s.session);
        case Cancel(t) =>
          if s.ops[t].Subscribing? {
            OthersCurrent(s.reg, s.ops[t].id, 0, Auto, 0, 0, "", s.session);
          }
        case Receive(id) => ReceiveCurrent(s.reg, id, s.session);
        case CloseReceiver(id) => OthersCurrent(s.reg, id, 0, Auto, 0, 0, "", s.session);
        case _ =>
      }
    }
  }

  lemma TaskCurrent(s: State, e: TaskStep)
    requires TaskEnabled(s, e) && PhaseGood(s) && CurrentPart(s)
    ensures CurrentPart(TaskNext(s, e))
  {
    hide AllCurrent, Forgot, DoRecord, SessionEnded, DoArrive, DoCollect;
    hide DoClean, DoDeliver, DoWake, DoPrune, DoFail, DoBrokerError;
    hide DoExit, AckTargets, Lists, Woken, Overrun, Disposed;
    match e {
      case Clean => CleanCurrent(s.reg, s.session);
      case Arrive(dest, sub, msgId, ackId) => ArriveBound(s, Incoming(s, dest, sub, msgId, ackId));
      case Collect => CollectBound(s, s.phase.m);
      case Record => RecordBound(s, s.phase.m, s.phase.targets);
      case Deliver(woken, _) => DeliverCurrent(s.reg, s.phase.m, woken);
      case FailOne(_) =>
        if s.phase.failed != [] {
          OthersCurrent(s.reg, s.phase.failed[0], 0, Auto, 0, 0, "", s.session);
        }
      case Wake(id) => WakeCurrent(s.reg, id, s.session);
      case Prune => OthersCurrent(s.reg, 0, 0, Auto, 0, 0, "", s.session);
      case BrokerError(dest, message) => OthersCurrent(s.reg, 0, dest, Auto, 0, 0, message, s.session);
      case _ =>
    }
  }

  /** An UNSUBSCRIBE about to be written leaves nothing pending for its subscription. */
  predicate WritingClean(s: State) {
    s.phase.Writing? && Waits(s.wire) && Front(s.wire).Unsubscribe? ==> Front(s.wire).id !in s.ledger.pending
  }

  lemma AppClean(s: State, e: AppStep)
    requires AppEnabled(s, e) && Good(s) && WritingClean(s)
    ensures WritingClean(AppNext(s, e))
  {
    AppFrame(s, e);
    AppSettles(s, e);
    PhaseWaits(s);
    hide Good, AppNext, AppEnabled, BookOnlySettles;
  }

  lemma PhaseWaits(s: State)
    requires Good(s)
    ensures s.phase.Writing? ==> Waits(s.wire)
    ensures s.phase.Forgetting? ==> Waits(s.wire) && Front(s.wire) == Unsubscribe(s.phase.id)
  {
  }

  lemma TaskClean(s: State, e: TaskStep)
    requires TaskEnabled(s, e) && Good(s)
    ensures WritingClean(TaskNext(s, e))
  {
    hide Good, Disposed, Writable, Lists, Woken, Overrun;
    PhaseWaits(s);
    match e {
      case Take =>
      case ForgetWritten =>
      case _ => OthersWrite(s, e);
    }
  }

  lemma OthersWrite(s: State, e: TaskStep)
    requires TaskEnabled(s, e) && !e.Take? && !e.ForgetWritten?
    ensures !TaskNext(s, e).phase.Writing?
  {
    hide Recorded, SessionEnded, DoClean, DoDeliver, DoWake, DoPrune, DoFail, DoBrokerError;
    hide DoExit, AckTargets, Acking, Lists, Woken, Overrun, Disposed, RegisteredIds, Registered, CanReach, Forgot;
  }

  lemma InitSound()
    ensures Sound(INIT)
  {
  }

  lemma StepSound(s: State, e: Step)
    requires Enabled(s, e) && Sound(s)
    ensures Sound(Next(s, e)) && Evolves(s, Next(s, e)) && CursorsForward(s, Next(s, e))
  {
    hide NamedOnce, Evolves, CursorsForward, WritingClean, CurrentPart;
    hide RegGood, PhaseGood, LedgerPart, WireGood, ReceiptsGood, OpsPart;
    hide BookBacked, AllRecorded, HandlerGood, HistoryPart, AppNext, TaskNext;
    hide AppEnabled, TaskEnabled, CanReach;
    match e {
      case App(a) =>
        AppKeeps(s, a);
        AppDelivered(s, a);
        AppOnce(s, a);
        AppForward(s, a);
        AppClean(s, a);
        AppCurrent(s, a);
      case Io(i) =>
        TaskKeeps(s, i);
        TaskDelivered(s, i);
        TaskForward(s, i);
        TaskClean(s, i);
        TaskCurrent(s, i);
        TaskOnce(s, i);
      case Net(n) =>
        NetKeeps(s, n);
        NetSound(s, n);
    }
    ForwardGood(s, Next(s, e));
  }

  lemma TaskOnce(s: State, e: TaskStep)
    requires TaskEnabled(s, e) && Good(s) && NamedOnce(s.ops, s.wire.queued)
    ensures NamedOnce(TaskNext(s, e).ops, TaskNext(s, e).wire.queued)
  {
    TaskFrame(s, e);
  }

  lemma NetSound(s: State, n: nat)
    requires CanReach(s.wire, n) && Sound(s)
    ensures Delivered(Next(s, Net(n))) && NamedOnce(Next(s, Net(n)).ops, Next(s, Net(n)).wire.queued)
    ensures WritingClean(Next(s, Net(n))) && CurrentPart(Next(s, Net(n))) && CursorsForward(s, Next(s, Net(n)))
  {
    NetEvolves(s, n);
    GoodParts(s);
    var after := Next(s, Net(n));
    hide CanReach, Good, Evolves, NamedOnce, CursorGood, CursorsForward, AllCurrent, LedgerPart;
    NetDelivered(s, after);
    hide HistoryPart, AllRecorded, HandlerGood;
    SameForward(s, after);
  }

  lemma ForwardGood(s: State, n: State)
    requires CursorsForward(s, n)
    ensures CursorGood(n)
  {
  }

  lemma {:induction false} RunSound(states: seq<State>, steps: seq<Step>, i: nat)
    requires IsRun(states, steps) && i < |states|
    ensures Sound(states[i])
  {
    hide Sound, Enabled, Next;
    if i == 0 {
      InitSound();
    } else {
      RunSound(states, steps, i - 1);
      StepSound(states[i - 1], steps[i - 1]);
    }
  }

  // ---------------------------------------------------------------- what only ever moves forward

  /** Decided fates, answered receipts and disposed frames stay; sessions and ids only advance. */
  ghost predicate Follows(s: State, n: State) {
    && RegEvolves(s.reg, n.reg)
    && BookKept(s.ledger, n.ledger)
    && AnswersKept(s.receipts, n.receipts)
    && WireKept(s.wire, n.wire, s.session)
    && s.session <= n.session && s.released <= n.released
  }

  ghost predicate BookKept(l: Ledger, n: Ledger) {
    forall k | k in l.book ::
      && k in n.book && n.book[k].pend == l.book[k].pend
      && (l.book[k].fate != Outstanding ==> n.book[k].fate == l.book[k].fate)
  }

  ghost predicate AnswersKept(r: Receipts, n: Receipts) {
    && (forall id | id in r.answers :: id in n.answers && n.answers[id] == r.answers[id])
    && (forall id | Known(r, id) :: Known(n, id))
  }

  /** What was disposed of since, was in this session or a later one. */
  ghost predicate WireKept(w: Wire, n: Wire, session: nat) {
    && w.queued <= n.queued && w.disposed <= n.disposed && w.reached <= n.reached
    && (forall i | |w.disposed| <= i < |n.disposed| :: n.disposed[i].Stale? || session <= n.disposed[i].session)
  }

  lemma StepFollows(s: State, e: Step)
    requires Enabled(s, e) && Sound(s)
    ensures Follows(s, Next(s, e))
  {
    var n := Next(s, e);
    StepSound(s, e);
    StepWire(s, e);
    StepCounters(s, e);
    hide Sound, Next, RegEvolves, Enabled, WireEvolves;
    assert WireKept(s.wire, n.wire, s.session) by { WireForward(s.wire, n.wire, s.session); }
    assert AnswersKept(s.receipts, n.receipts);
  }

  lemma WireForward(w: Wire, n: Wire, session: nat)
    requires WireEvolves(w, n, session)
    ensures WireKept(w, n, session)
  {
  }

  lemma StepWire(s: State, e: Step)
    requires Enabled(s, e) && Good(s)
    ensures WireEvolves(s.wire, Next(s, e).wire, s.session)
  {
    hide AppNext, TaskNext, AppEnabled, TaskEnabled;
    match e {
      case App(a) => AppWire(s, a);
      case Io(i) => TaskWire(s, i);
      case Net(n) => ReachKeeps(s.wire, n, s.session, Up(s.phase));
    }
  }

  lemma StepCounters(s: State, e: Step)
    requires Enabled(s, e)
    ensures s.session <= Next(s, e).session
  {
    match e {
      case App(a) =>
        AppFrame(s, a);
        hide AppNext;
      case Io(i) =>
        hide Recorded, SessionEnded, Forgot;
        hide DoClean, DoDeliver, DoWake, DoPrune, DoFail, DoBrokerError, DoExit;
        hide AckTargets, Lists, Woken, Overrun, Disposed;
      case Net(n) =>
    }
  }

  lemma RegEvolvesThrough(a: Reg, b: Reg, c: Reg)
    requires RegEvolves(a, b) && RegEvolves(b, c)
    ensures RegEvolves(a, c)
  {
  }

  lemma FollowsThrough(a: State, b: State, c: State)
    requires Follows(a, b) && Follows(b, c)
    ensures Follows(a, c)
  {
    RegEvolvesThrough(a.reg, b.reg, c.reg);
    hide RegEvolves, Known;
  }

  lemma FollowsSelf(s: State)
    ensures Follows(s, s)
  {
  }

  lemma {:induction false} RunFollows(states: seq<State>, steps: seq<Step>, i: nat, j: nat)
    requires IsRun(states, steps) && i <= j < |states|
    ensures Follows(states[i], states[j])
    decreases j
  {
    hide Follows, Enabled, Next, Sound;
    if i == j {
      FollowsSelf(states[i]);
    } else {
      RunFollows(states, steps, i, j - 1);
      RunSound(states, steps, j - 1);
      StepFollows(states[j - 1], steps[j - 1]);
      FollowsThrough(states[i], states[j - 1], states[j]);
    }
  }
}
