/** What every section keeps true of the client's state. */
module Invariant {
  import opened Options
  import opened Lane
  import opened Types
  import opened Registry
  import opened Ledger
  import opened Wire
  import opened Client

  // ---------------------------------------------------------------- the parts of the invariant

  /** A subscription that is not registered and never will be again. */
  predicate Gone(r: Reg, id: SubId) {
    id in r.subs && !r.subs[id].registered
  }

  /** A queued item is backed by what it stands for. */
  predicate OutGood(s: State, out: Out) {
    match out
    case Subscribe(id) => id in s.reg.subs
    case Plain(Some(r)) => Known(s.receipts, r)
    case Ack(sub, ackId, session, serial) =>
      && Key(sub, serial) in s.ledger.book
      && s.ledger.book[Key(sub, serial)].fate == Named
      && s.ledger.book[Key(sub, serial)].pend.ackId == ackId
      && s.ledger.book[Key(sub, serial)].pend.session == session
    case _ => true
  }

  predicate OpGood(s: State, op: Op) {
    match op
    case Subscribing(id) => id in s.reg.subs
    case Settling(sub, _, managed) => managed.Some? ==> sub in s.reg.subs && s.reg.subs[sub].mode == managed.value
    case Sending(out) => !out.Subscribe? && OutGood(s, out)
    case UnsubForgetting(id) => Gone(s.reg, id)
    case DropForgetting(id) => id in s.released
    case DropSending(id) => id in s.released
    case ReceiptSending(r) => Known(s.receipts, r)
  }

  /** The MESSAGE being handled belongs to the connection in use. */
  predicate InFlight(s: State, m: Message) {
    m.serial < s.nextSerial && m.session == s.session && m.horizon <= s.reg.nextId
  }

  /** No connection is up to anything yet: nothing was delivered in this session. */
  predicate Quiet(p: Phase) {
    || p.Boot? || p.Fresh? || p.Snapshot? || p.Replaying?
    || p.Backoff? || p.Head? || p.Passed? || p.Dialing?
  }

  /** What the I/O task has established at each point of its loop. */
  predicate PhaseGood(s: State) {
    match s.phase
    case Replaying(ids) => forall i | 0 <= i < |ids| :: ids[i] in s.reg.subs
    case Writing => Waits(s.wire) && Writable(Front(s.wire), s.session)
    case Forgetting(id) => Waits(s.wire) && Front(s.wire) == Unsubscribe(id)
    case Collecting(m) => InFlight(s, m) && m.msgId.Some?
    case Recording(m, _) => InFlight(s, m) && m.msgId.Some?
    case Delivering(m) => InFlight(s, m)
    case Sweeping(_, failed) => forall i | 0 <= i < |failed| :: Gone(s.reg, failed[i])
    case Failing(failed) => forall i | 0 <= i < |failed| :: Gone(s.reg, failed[i])
    case Unpending(id) => Gone(s.reg, id)
    case Done(horizon) =>
      && horizon <= s.reg.nextId
      && forall id | id in s.reg.subs && id < horizon :: !s.reg.subs[id].registered
    case _ => true
  }

  /** Serials below this may be in the book. */
  function LedgerBound(s: State): nat {
    if s.phase.Collecting? || s.phase.Recording? then s.phase.m.serial else s.nextSerial
  }

  /** The connection may still be written to, or there is none yet. */
  predicate Up(p: Phase) {
    !p.Dropped? && !p.Exiting? && !p.Done?
  }

  ghost predicate LedgerPart(s: State) {
    && LedgerGood(s.ledger, s.session, LedgerBound(s))
    && (Quiet(s.phase) ==> s.ledger.pending == map[])
  }

  ghost predicate OpsPart(s: State) {
    && (forall t | t in s.ops :: OpGood(s, s.ops[t]))
    && (forall i | 0 <= i < |s.wire.queued| :: OutGood(s, s.wire.queued[i]))
    && (forall id | id in s.wire.seen :: id in s.reg.subs)
  }

  ghost predicate Good(s: State) {
    && RegGood(s.reg)
    && PhaseGood(s)
    && LedgerPart(s)
    && WireGood(s.wire, s.session, Up(s.phase))
    && ReceiptsGood(s.receipts)
    && OpsPart(s)
  }

  lemma GoodParts(s: State)
    requires Good(s)
    ensures RegGood(s.reg) && PhaseGood(s) && LedgerPart(s) && OpsPart(s)
  {
  }

  // ---------------------------------------------------------------- each component, section by section

  lemma RegSame(r: Reg)
    ensures RegEvolves(r, r)
  {
  }

  lemma AppReg(s: State, e: AppStep)
    requires AppEnabled(s, e) && RegGood(s.reg)
    ensures RegGood(AppNext(s, e).reg) && RegEvolves(s.reg, AppNext(s, e).reg)
  {
    hide DoRegister, DoUnregister, DoClose, DoReceive;
    hide SubGood, SubEvolves, Settled, Forgot, Find, WakeGood;
    RegSame(s.reg);
    match e {
      case Register(_, dest, mode, limit, capacity) => RegisterKeeps(s.reg, dest, mode, limit, capacity);
      case Unregister(_, id) => UnregisterKeeps(s.reg, id);
      case DropHandle(_, id, locked) => UnregisterKeeps(s.reg, id);
      case DropSend(t, _) => CloseKeeps(s.reg, s.ops[t].id);
      case Cancel(t) =>
        if s.ops[t].Subscribing? {
          CloseKeeps(s.reg, s.ops[t].id);
        }
      case Receive(id) => ReceiveKeeps(s.reg, id);
      case CloseReceiver(id) => CloseKeeps(s.reg, id);
      case _ =>
    }
  }

  lemma TaskReg(s: State, e: TaskStep)
    requires TaskEnabled(s, e) && RegGood(s.reg) && PhaseGood(s)
    ensures RegGood(TaskNext(s, e).reg) && RegEvolves(s.reg, TaskNext(s, e).reg)
  {
    hide DoClean, DoDeliver, DoWake, DoPrune, DoFail, DoBrokerError, DoExit;
    hide Woken, Overrun, Lists, SubGood, SubEvolves, Disposed, Forgot, Recorded, SessionEnded, WakeGood;
    RegSame(s.reg);
    match e {
      case Clean => CleanKeeps(s.reg);
      case Deliver(woken, _) => DeliverKeeps(s.reg, s.phase.m, woken);
      case FailOne(_) =>
        if s.phase.failed != [] {
          FailKeeps(s.reg, s.phase.failed[0]);
        }
      case Wake(id) => WakeKeeps(s.reg, id);
      case Prune => PruneKeeps(s.reg);
      case BrokerError(dest, message) => BrokerErrorKeeps(s.reg, dest, message);
      case Exit => ExitKeeps(s.reg);
      case _ =>
    }
  }

  lemma LedgerSame(l: Ledger, session: nat, bound: nat, higher: nat)
    requires LedgerGood(l, session, bound) && bound <= higher
    ensures LedgerGood(l, session, higher) && LedgerEvolves(l, l, session)
  {
    hide QueueGood;
  }

  lemma AppLedger(s: State, e: AppStep)
    requires AppEnabled(s, e) && LedgerPart(s)
    ensures LedgerPart(AppNext(s, e)) && LedgerEvolves(s.ledger, AppNext(s, e).ledger, s.session)
  {
    hide LedgerGood, LedgerEvolves, Settled, Forgot, Find;
    hide DoRegister, DoUnregister, DoClose, DoReceive;
    var bound := LedgerBound(s);
    LedgerSame(s.ledger, s.session, bound, bound);
    match e {
      case UnsubForget(t) =>
        ForgetKeeps(s.ledger, {s.ops[t].id}, Unsubscribing, s.session, bound);
        ForgetPending(s.ledger, {s.ops[t].id}, Unsubscribing);
      case DropForget(t, locked) =>
        ForgetKeeps(s.ledger, {s.ops[t].id}, HandleDropped, s.session, bound);
        ForgetPending(s.ledger, {s.ops[t].id}, HandleDropped);
      case Settle(t) =>
        var q := QueueOf(s.ledger.pending, s.ops[t].sub);
        var pos := Find(q, s.ops[t].named);
        if pos < |q| {
          SettleKeeps(s.ledger, s.ops[t].sub, pos, IsCumulative(s.ops[t].managed), s.session, bound);
        }
      case _ =>
    }
  }

  lemma ForgetPending(l: Ledger, ids: set<SubId>, why: Reason)
    ensures l.pending == map[] ==> Forgot(l, ids, why).pending == map[]
  {
  }

  lemma ArriveStep(s: State, m: Message)
    requires s.phase.Idle? && LedgerPart(s) && m.serial == s.nextSerial
    ensures LedgerPart(DoArrive(s, m)) && DoArrive(s, m).ledger == s.ledger
  {
    hide LedgerGood;
    LedgerSame(s.ledger, s.session, s.nextSerial, s.nextSerial + 1);
  }

  lemma CollectStep(s: State, m: Message)
    requires s.phase == Collecting(m) && PhaseGood(s) && LedgerPart(s)
    ensures LedgerPart(DoCollect(s, m)) && DoCollect(s, m).ledger == s.ledger
  {
    hide LedgerGood;
    LedgerSame(s.ledger, s.session, m.serial, s.nextSerial);
  }

  lemma RecordStep(s: State, m: Message, ids: set<SubId>)
    requires s.phase == Recording(m, ids) && PhaseGood(s) && LedgerPart(s)
    ensures LedgerPart(DoRecord(s, m, ids)) && LedgerEvolves(s.ledger, DoRecord(s, m, ids).ledger, s.session)
  {
    hide LedgerGood, LedgerEvolves, Recorded;
    var p := PendOf(m);
    RecordKeeps(s.ledger, ids, p, s.session);
    LedgerSame(Recorded(s.ledger, ids, p), s.session, p.serial + 1, s.nextSerial);
  }

  /** Sections that leave the pending map alone. */
  lemma PlainLedger(s: State, e: TaskStep)
    requires TaskEnabled(s, e) && !e.ForgetWritten? && !e.Record? && !e.Sweep? && !e.Unpend? && !e.EndSession?
    ensures TaskNext(s, e).ledger == s.ledger
  {
    hide DoClean, DoDeliver, DoWake, DoPrune, DoFail, DoBrokerError;
    hide DoExit, AckTargets, Lists, Woken, Overrun, Disposed;
  }

  lemma PlainBound(s: State, e: TaskStep)
    requires TaskEnabled(s, e) && !e.Arrive? && !e.Collect? && !e.Record? && !e.EndSession?
    ensures var n := TaskNext(s, e);
            n.session == s.session && LedgerBound(n) == LedgerBound(s) && (Quiet(n.phase) ==> Quiet(s.phase))
  {
    hide Forgot, RegisteredIds;
    hide DoClean, DoDeliver, DoWake, DoPrune, DoFail, DoBrokerError, DoExit;
    hide AckTargets, Lists, Woken, Overrun, Disposed;
  }

  lemma TaskLedger(s: State, e: TaskStep)
    requires TaskEnabled(s, e) && LedgerPart(s) && PhaseGood(s)
    ensures LedgerPart(TaskNext(s, e)) && LedgerEvolves(s.ledger, TaskNext(s, e).ledger, s.session)
  {
    hide LedgerGood, LedgerEvolves, Forgot, DoRecord, DoArrive, DoCollect, SessionEnded, PhaseGood;
    hide DoClean, DoDeliver, DoWake, DoPrune, DoFail, DoBrokerError, DoExit, AckTargets, Disposed, Lists;
    var bound := LedgerBound(s);
    LedgerSame(s.ledger, s.session, bound, bound);
    match e {
      case ForgetWritten => ForgetKeeps(s.ledger, {s.phase.id}, UnsubscribeSent, s.session, bound);
      case Arrive(dest, sub, msgId, ackId) => ArriveStep(s, Incoming(s, dest, sub, msgId, ackId));
      case Collect => CollectStep(s, s.phase.m);
      case Record => RecordStep(s, s.phase.m, s.phase.targets);
      case Sweep => ForgetKeeps(s.ledger, s.ledger.pending.Keys - s.phase.live, Swept, s.session, bound);
      case Unpend => ForgetKeeps(s.ledger, {s.phase.id}, ReceiverGone, s.session, bound);
      case EndSession => EndKeeps(s.ledger, s.session, bound);
      case _ =>
        PlainLedger(s, e);
        PlainBound(s, e);
        hide TaskNext;
    }
  }

  lemma WireSame(w: Wire, session: nat, up: bool, now: bool)
    requires WireGood(w, session, up) && (now ==> up)
    ensures WireGood(w, session, now) && WireEvolves(w, w, session)
  {
  }

  lemma AppWire(s: State, e: AppStep)
    requires AppEnabled(s, e) && WireGood(s.wire, s.session, Up(s.phase))
    ensures WireGood(AppNext(s, e).wire, s.session, Up(s.phase))
    ensures WireEvolves(s.wire, AppNext(s, e).wire, s.session)
  {
    hide WireGood, WireEvolves, Settled, Forgot, Find, Enqueued;
    hide DoRegister, DoUnregister, DoClose, DoReceive;
    WireSame(s.wire, s.session, Up(s.phase), Up(s.phase));
    match e {
      case DropSend(t, sent) => EnqueueKeeps(s.wire, Unsubscribe(s.ops[t].id), s.session, Up(s.phase));
      case Enqueue(t) => EnqueueKeeps(s.wire, OutOf(s.ops[t]), s.session, Up(s.phase));
      case RawSend(out) => EnqueueKeeps(s.wire, out, s.session, Up(s.phase));
      case _ =>
    }
  }

  lemma SeenKeeps(w: Wire, id: SubId, session: nat, up: bool)
    requires WireGood(w, session, up)
    ensures WireGood(w.(seen := w.seen + {id}), session, up) && WireEvolves(w, w.(seen := w.seen + {id}), session)
  {
  }

  lemma TaskWire(s: State, e: TaskStep)
    requires TaskEnabled(s, e) && PhaseGood(s) && WireGood(s.wire, s.session, Up(s.phase)) && OpsPart(s)
    requires LedgerPart(s)
    ensures WireGood(TaskNext(s, e).wire, TaskNext(s, e).session, Up(TaskNext(s, e).phase))
    ensures WireEvolves(s.wire, TaskNext(s, e).wire, s.session)
  {
    hide WireGood, WireEvolves, LedgerPart, Disposed, PhaseGood, OpsPart, Writable, Lists, Woken, Overrun;
    WireSame(s.wire, s.session, Up(s.phase), Up(s.phase));
    WireSame(s.wire, s.session, Up(s.phase), false);
    match e {
      case ReplayOne(_) =>
        if s.phase.ids != [] {
          SeenKeeps(s.wire, s.phase.ids[0], s.session, true);
        }
      case Take =>
        if !Writable(Front(s.wire), s.session) {
          FrontStale(s);
          DisposeKeeps(s.wire, Stale, s.session, true);
        }
      case WriteDone(ok) =>
        FrontWritable(s);
        DisposeKeeps(s.wire, if ok then Handed(s.session) else WriteFailed(s.session), s.session, ok);
      case EndSession => AdvanceKeeps(s.wire, s.session, false);
      case _ => OthersKeepWire(s, e);
    }
  }

  lemma FrontStale(s: State)
    requires OpsPart(s) && LedgerPart(s) && Waits(s.wire) && !Writable(Front(s.wire), s.session)
    ensures DisposalGood(Front(s.wire), Stale, s.session)
  {
    QueuedAckOlder(s, |s.wire.disposed|);
  }

  lemma FrontWritable(s: State)
    requires PhaseGood(s) && s.phase.Writing? && Waits(s.wire)
    ensures Writable(Front(s.wire), s.session)
  {
  }

  /** Every other section leaves the log alone, and none of them begins a connection without a new session. */
  lemma OthersKeepWire(s: State, e: TaskStep)
    requires TaskEnabled(s, e) && !e.ReplayOne? && !e.Take? && !e.WriteDone? && !e.EndSession?
    ensures TaskNext(s, e).wire == s.wire && TaskNext(s, e).session == s.session
    ensures Up(TaskNext(s, e).phase) ==> Up(s.phase)
  {
    hide Recorded, SessionEnded, DoClean, DoDeliver, DoWake, DoPrune, DoFail, DoBrokerError;
    hide DoExit, AckTargets, Acking, Lists, Woken, Overrun, Disposed, RegisteredIds, Registered, CanReach, Forgot;
  }

  /** Only a write, or a skipped acknowledgement, disposes of an item. */
  lemma OtherDisposed(s: State, e: TaskStep)
    requires TaskEnabled(s, e) && !e.Take? && !e.WriteDone?
    ensures TaskNext(s, e).wire.disposed == s.wire.disposed
    ensures e.EndSession? || TaskNext(s, e).session == s.session
  {
    if e.ReplayOne? || e.EndSession? {
      hide SessionEnded;
    } else {
      OthersKeepWire(s, e);
      hide TaskNext, TaskEnabled;
    }
  }

  /** A queued acknowledgement is for this session or an earlier one. */
  lemma QueuedAckOlder(s: State, i: nat)
    requires LedgerPart(s) && OpsPart(s) && i < |s.wire.queued| && s.wire.queued[i].Ack?
    ensures s.wire.queued[i].session <= s.session
  {
    hide QueueGood;
    var out := s.wire.queued[i];
    assert OutGood(s, out);
    var k := Key(out.sub, out.serial);
    assert LineGood(s.ledger, k, s.ledger.book[k], s.session, LedgerBound(s));
  }

  lemma AppReceipts(s: State, e: AppStep)
    requires AppEnabled(s, e) && ReceiptsGood(s.receipts)
    ensures ReceiptsGood(AppNext(s, e).receipts) && ReceiptsEvolve(s.receipts, AppNext(s, e).receipts)
  {
    hide ReceiptsGood, ReceiptsEvolve, Registering, Deregistered;
    hide Settled, Forgot, Find, DoRegister, DoUnregister, DoClose, DoReceive;
    ReceiptsSame(s.receipts);
    ReceiptSectionsKeep(s.receipts, 0, true);
    match e {
      case Cancel(t) =>
        if s.ops[t].ReceiptSending? {
          ReceiptSectionsKeep(s.receipts, s.ops[t].receipt, true);
        }
      case SendFailed(t) => SendFailedKeeps(s.receipts, s.ops[t].receipt);
      case CloseHandle(r) => ReceiptSectionsKeep(s.receipts, r, true);
      case Deregister(r) => ReceiptSectionsKeep(s.receipts, r, true);
      case _ =>
    }
  }

  lemma SendFailedKeeps(r: Receipts, id: ReceiptId)
    requires ReceiptsGood(r)
    ensures ReceiptsGood(Deregistered(HandleClosed(r, id), id))
    ensures ReceiptsEvolve(r, Deregistered(HandleClosed(r, id), id))
  {
  }

  lemma TaskReceipts(s: State, e: TaskStep)
    requires TaskEnabled(s, e) && ReceiptsGood(s.receipts)
    ensures ReceiptsGood(TaskNext(s, e).receipts) && ReceiptsEvolve(s.receipts, TaskNext(s, e).receipts)
  {
    hide ReceiptsGood, ReceiptsEvolve, Answered, Forgot, Recorded, SessionEnded;
    hide DoClean, DoDeliver, DoWake, DoPrune, DoFail, DoBrokerError, DoExit, AckTargets, Disposed, Lists;
    ReceiptSectionsKeep(s.receipts, 0, true);
    ReceiptsSame(s.receipts);
    if e.Answer? {
      ReceiptSectionsKeep(s.receipts, e.receipt, e.ok);
    }
  }

  lemma ReceiptsSame(r: Receipts)
    ensures ReceiptsEvolve(r, r)
  {
  }

  // ---------------------------------------------------------------- what stays true as components evolve

  ghost predicate Evolves(s: State, n: State) {
    && RegEvolves(s.reg, n.reg)
    && LedgerEvolves(s.ledger, n.ledger, s.session)
    && ReceiptsEvolve(s.receipts, n.receipts)
    && s.released <= n.released
  }

  lemma OutStays(s: State, n: State, out: Out)
    requires Evolves(s, n) && OutGood(s, out)
    ensures OutGood(n, out)
  {
  }

  lemma OpStays(s: State, n: State, op: Op)
    requires Evolves(s, n) && OpGood(s, op)
    ensures OpGood(n, op)
  {
    if op.Sending? {
      OutStays(s, n, op.out);
    }
    hide OutGood, LedgerEvolves;
  }

  /** Nothing but `t`'s operation and `out` at the back of the queue is new. */
  lemma OpsStay(s: State, n: State, t: Tid)
    requires Evolves(s, n) && OpsPart(s)
    requires n.ops - {t} == s.ops - {t} && (t in n.ops ==> OpGood(n, n.ops[t]))
    requires s.wire.queued <= n.wire.queued && |n.wire.queued| <= |s.wire.queued| + 1
    requires |n.wire.queued| == |s.wire.queued| + 1 ==> OutGood(n, n.wire.queued[|s.wire.queued|])
    requires forall id | id in n.wire.seen :: id in s.wire.seen || id in s.reg.subs
    ensures OpsPart(n)
  {
    forall k | k in n.ops
      ensures OpGood(n, n.ops[k])
    {
      if k != t {
        assert k in n.ops - {t};
        assert n.ops[k] == (n.ops - {t})[k] == (s.ops - {t})[k];
        OpStays(s, n, s.ops[k]);
      }
    }
    forall i | 0 <= i < |n.wire.queued|
      ensures OutGood(n, n.wire.queued[i])
    {
      if i < |s.wire.queued| {
        assert n.wire.queued[i] == s.wire.queued[i];
        OutStays(s, n, s.wire.queued[i]);
      }
    }
    hide OutGood, OpGood, LedgerEvolves, ReceiptsEvolve, SubEvolves;
  }

  lemma AppEvolves(s: State, e: AppStep)
    requires AppEnabled(s, e) && Good(s)
    ensures Evolves(s, AppNext(s, e))
  {
    AppReg(s, e);
    AppLedger(s, e);
    AppReceipts(s, e);
    hide RegGood, RegEvolves, LedgerPart, LedgerEvolves, ReceiptsGood, ReceiptsEvolve, WireGood, OpsPart, PhaseGood;
    hide Settled, Forgot, Find, DoRegister, DoUnregister, DoClose, DoReceive, Enqueued;
  }

  lemma TaskEvolves(s: State, e: TaskStep)
    requires TaskEnabled(s, e) && Good(s)
    ensures Evolves(s, TaskNext(s, e))
  {
    TaskReg(s, e);
    TaskLedger(s, e);
    TaskReceipts(s, e);
    hide RegGood, RegEvolves, LedgerPart, LedgerEvolves, ReceiptsGood, ReceiptsEvolve, WireGood, OpsPart, PhaseGood;
    hide DoClean, DoDeliver, DoWake, DoPrune, DoFail, DoBrokerError, DoExit, AckTargets, Disposed, Lists;
    hide Forgot, Recorded, SessionEnded;
  }

  /** A section of an application call, or else something done to a handle. */
  predicate InCall(e: AppStep) {
    !e.RawSend? && !e.Receive? && !e.CloseReceiver? && !e.CloseHandle? && !e.Deregister? && !e.Signal?
  }

  /** The task whose call took the step; any other when none did. */
  function Actor(e: AppStep): Tid {
    match e
    case Register(t, _, _, _, _) => t
    case Unregister(t, _) => t
    case UnsubForget(t) => t
    case DropHandle(t, _, _) => t
    case DropForget(t, _) => t
    case DropSend(t, _) => t
    case BeginAck(t, _, _) => t
    case Settle(t) => t
    case RegisterReceipt(t) => t
    case Enqueue(t) => t
    case Cancel(t) => t
    case SendFailed(t) => t
    case _ => 0
  }

  /** Only the acting task's operation changes, and at most one item is queued. */
  lemma AppFrame(s: State, e: AppStep)
    requires AppEnabled(s, e)
    ensures var n := AppNext(s, e);
            && n.ops - {Actor(e)} == s.ops - {Actor(e)}
            && s.wire.queued <= n.wire.queued && |n.wire.queued| <= |s.wire.queued| + 1
            && n.wire.disposed == s.wire.disposed && n.wire.seen == s.wire.seen
            && n.phase == s.phase && n.session == s.session && n.nextSerial == s.nextSerial
  {
    hide Settled, Forgot, Find, DoRegister, DoUnregister, DoClose, DoReceive, Registering, HandleClosed, Deregistered;
  }

  lemma AppOps(s: State, e: AppStep)
    requires AppEnabled(s, e) && Good(s)
    ensures OpsPart(AppNext(s, e))
  {
    AppEvolves(s, e);
    AppFrame(s, e);
    AppOutGood(s, e);
    var n := AppNext(s, e);
    var t := Actor(e);
    if t in n.ops {
      AppOpGood(s, e);
      if t in s.ops && n.ops[t] == s.ops[t] {
        OpOf(s, t);
        OpStays(s, n, s.ops[t]);
      }
      AppLeaves(s, e);
    }
    hide RegGood, LedgerPart, WireGood, ReceiptsGood, Evolves, OpGood, OutGood, PhaseGood, OpsPart, AppNext;
    OpsStay(s, n, t);
  }

  /** Steps outside any call leave the calls as they are. */
  lemma AppLeaves(s: State, e: AppStep)
    requires AppEnabled(s, e)
    ensures !InCall(e) ==> AppNext(s, e).ops == s.ops
  {
    hide DoClose, DoReceive;
  }

  /** The acting task's new operation is backed. */
  lemma AppOpGood(s: State, e: AppStep)
    requires AppEnabled(s, e) && OpsPart(s) && LedgerPart(s) && Actor(e) in AppNext(s, e).ops
    ensures InCall(e) && AppNext(s, e) != s ==> OpGood(AppNext(s, e), AppNext(s, e).ops[Actor(e)])
  {
    hide LedgerPart, OpsPart, Settled, Forgot, Find, DoUnregister;
    match e {
      case Unregister(_, id) => UnregisterGone(s.reg, id);
      case DropForget(t, _) => OpOf(s, t);
      case Settle(t) => SettleOpGood(s, t, s.ops[t].sub, s.ops[t].named, s.ops[t].managed);
      case RegisterReceipt(_) => KnownFromStart(s.receipts);
      case _ =>
    }
  }

  lemma OpOf(s: State, t: Tid)
    requires OpsPart(s) && t in s.ops
    ensures OpGood(s, s.ops[t])
  {
  }

  /** What it queued is backed too. */
  lemma AppOutGood(s: State, e: AppStep)
    requires AppEnabled(s, e) && OpsPart(s)
    ensures var n := AppNext(s, e);
            |n.wire.queued| == |s.wire.queued| + 1 ==> OutGood(n, n.wire.queued[|s.wire.queued|])
  {
    hide OpsPart, Settled, Forgot, Find, DoRegister, DoUnregister, DoClose, DoReceive, HandleClosed, Deregistered;
    if e.Enqueue? {
      OpOf(s, e.t);
    }
  }

  lemma KnownFromStart(r: Receipts)
    ensures Known(Registering(r), r.next)
  {
  }

  lemma UnregisterGone(r: Reg, id: SubId)
    ensures Registered(r, id) ==> Gone(DoUnregister(r, id), id)
  {
  }

  lemma SettleOpGood(s: State, t: Tid, sub: SubId, named: Token, managed: Option<AckMode>)
    requires LedgerPart(s)
    ensures var n := DoSettle(s, t, sub, named, managed);
            t in n.ops ==> OpGood(n, n.ops[t])
  {
    var q := QueueOf(s.ledger.pending, sub);
    var pos := Find(q, named);
    hide LedgerGood, LedgerEvolves, Settled, Find;
    if pos < |q| {
      SettleKeeps(s.ledger, sub, pos, IsCumulative(managed), s.session, LedgerBound(s));
    }
  }

  // ---------------------------------------------------------------- the whole invariant

  lemma AppPhase(s: State, e: AppStep)
    requires AppEnabled(s, e) && Good(s)
    ensures PhaseGood(AppNext(s, e))
  {
    AppEvolves(s, e);
    AppFrame(s, e);
    hide RegGood, LedgerPart, WireGood, ReceiptsGood, OpsPart, AppNext, LedgerEvolves, ReceiptsEvolve, PhaseGood;
    PhaseStays(s, AppNext(s, e));
  }

  lemma PhaseStays(s: State, n: State)
    requires PhaseGood(s) && RegEvolves(s.reg, n.reg)
    requires n.phase == s.phase && n.session == s.session && n.nextSerial == s.nextSerial
    requires s.wire.queued <= n.wire.queued && n.wire.disposed == s.wire.disposed
    ensures PhaseGood(n)
  {
  }

  lemma AppKeeps(s: State, e: AppStep)
    requires AppEnabled(s, e) && Good(s)
    ensures Good(AppNext(s, e)) && Evolves(s, AppNext(s, e))
  {
    AppReg(s, e);
    AppLedger(s, e);
    AppWire(s, e);
    AppReceipts(s, e);
    AppFrame(s, e);
    AppOps(s, e);
    AppPhase(s, e);
    AppEvolves(s, e);
    hide RegGood, LedgerPart, WireGood, ReceiptsGood, OpsPart, AppNext, PhaseGood, Evolves;
  }

  lemma OpsStayAll(s: State, n: State)
    requires Evolves(s, n) && OpsPart(s)
    requires n.ops == s.ops && n.wire.queued == s.wire.queued
    requires forall id | id in n.wire.seen :: id in s.wire.seen || id in s.reg.subs
    ensures OpsPart(n)
  {
    assert 0 in s.ops ==> OpGood(s, s.ops[0]);
    if 0 in s.ops {
      OpStays(s, n, s.ops[0]);
    }
    hide OpGood, OutGood, Evolves;
    OpsStay(s, n, 0);
  }

  lemma TaskOps(s: State, e: TaskStep)
    requires TaskEnabled(s, e) && Good(s)
    ensures OpsPart(TaskNext(s, e))
  {
    TaskEvolves(s, e);
    TaskFrame(s, e);
    hide RegGood, LedgerPart, WireGood, ReceiptsGood, Evolves, OpsPart, PhaseGood, TaskNext;
    OpsStayAll(s, TaskNext(s, e));
  }

  /** The I/O task queues nothing and touches no application's operation. */
  lemma TaskFrame(s: State, e: TaskStep)
    requires TaskEnabled(s, e) && PhaseGood(s) && OpsPart(s)
    ensures var n := TaskNext(s, e);
            && n.ops == s.ops && n.wire.queued == s.wire.queued
            && (forall id | id in n.wire.seen :: id in s.wire.seen || id in s.reg.subs)
  {
    hide OpsPart;
    match e {
      case ReplayOne(ok) => ReplaySeen(s, s.phase.ids, ok);
      case WriteDone(ok) => WriteSeen(s, ok);
      case _ => TaskPlain(s, e);
    }
  }

  /** Sections that send nothing to the broker. */
  lemma TaskPlain(s: State, e: TaskStep)
    requires TaskEnabled(s, e) && !e.ReplayOne? && !e.WriteDone?
    ensures var n := TaskNext(s, e);
            n.ops == s.ops && n.wire.queued == s.wire.queued && n.wire.seen == s.wire.seen
  {
    hide DoClean, DoDeliver, DoWake, DoPrune, DoFail, DoBrokerError, DoExit, AckTargets, Lists;
    hide Forgot, Recorded, SessionEnded, RegisteredIds, Woken, Overrun;
  }

  lemma ReplaySeen(s: State, ids: seq<SubId>, ok: bool)
    requires s.phase == Replaying(ids) && PhaseGood(s)
    ensures var n := DoReplayOne(s, ids, ok);
            && n.ops == s.ops && n.wire.queued == s.wire.queued
            && (forall id | id in n.wire.seen :: id in s.wire.seen || id in s.reg.subs)
  {
  }

  lemma WriteSeen(s: State, ok: bool)
    requires Waits(s.wire) && OpsPart(s)
    ensures var n := DoWriteDone(s, ok);
            && n.ops == s.ops && n.wire.queued == s.wire.queued
            && (forall id | id in n.wire.seen :: id in s.wire.seen || id in s.reg.subs)
  {
    assert OutGood(s, Front(s.wire));
  }

  lemma TaskPhase(s: State, e: TaskStep)
    requires TaskEnabled(s, e) && Good(s)
    ensures PhaseGood(TaskNext(s, e))
  {
    match e {
      case TakeSnapshot(_) => ReplayPhase(s, e);
      case ReplayOne(_) => ReplayPhase(s, e);
      case Take => WritePhase(s, e);
      case ForgetWritten => WritePhase(s, e);
      case Arrive(_, _, _, _) => MessagePhase(s, e);
      case Collect => MessagePhase(s, e);
      case Record => MessagePhase(s, e);
      case Deliver(_, _) => FailPhase(s, e);
      case Sweep => FailPhase(s, e);
      case FailOne(_) => FailPhase(s, e);
      case Wake(id) => WakePhase(s, e);
      case Exit => ExitPhase(s, e);
      case _ => OtherPhase(s, e);
    }
  }

  lemma OtherPhase(s: State, e: TaskStep)
    requires TaskEnabled(s, e) && PhaseGood(s)
    requires e.Start? || e.Clean? || e.WriteDone? || e.Unpend? || e.Prune? || e.Answer? || e.BrokerError? || e.Lose?
          || e.TakeSignal? || e.EndSession? || e.EndBackoff? || e.CheckHead? || e.Dial? || e.Attempt?
    ensures PhaseGood(TaskNext(s, e))
  {
    hide SessionEnded, DoClean, DoPrune, DoBrokerError, Forgot, Answered, Disposed;
  }

  lemma ReplayPhase(s: State, e: TaskStep)
    requires TaskEnabled(s, e) && (e.TakeSnapshot? || e.ReplayOne?) && PhaseGood(s)
    ensures PhaseGood(TaskNext(s, e))
  {
  }

  lemma WritePhase(s: State, e: TaskStep)
    requires TaskEnabled(s, e) && (e.Take? || e.ForgetWritten?) && PhaseGood(s)
    ensures PhaseGood(TaskNext(s, e))
  {
    hide Forgot, Disposed;
  }

  lemma MessagePhase(s: State, e: TaskStep)
    requires TaskEnabled(s, e) && (e.Arrive? || e.Collect? || e.Record?) && PhaseGood(s)
    ensures PhaseGood(TaskNext(s, e))
  {
    hide Recorded, AckTargets;
  }

  lemma FailPhase(s: State, e: TaskStep)
    requires TaskEnabled(s, e) && (e.Deliver? || e.Sweep? || e.FailOne?) && PhaseGood(s)
    ensures PhaseGood(TaskNext(s, e))
  {
    if e.Deliver? {
      OverrunGone(s.reg, s.phase.m, e.woken, e.failed);
    }
    hide Forgot, DoDeliver, Without, Overrun, Lists;
  }

  lemma WakePhase(s: State, e: TaskStep)
    requires TaskEnabled(s, e) && e.Wake?
    ensures PhaseGood(TaskNext(s, e))
  {
    WakeGone(s.reg, e.id);
    hide DoWake, Drained;
  }

  lemma ExitPhase(s: State, e: TaskStep)
    requires TaskEnabled(s, e) && e.Exit? && RegGood(s.reg)
    ensures PhaseGood(TaskNext(s, e))
  {
    ExitKeeps(s.reg);
    hide RegGood, RegEvolves, SubEvolves;
  }

  lemma OverrunGone(r: Reg, m: Message, woken: seq<SubId>, failed: seq<SubId>)
    requires Lists(failed, Overrun(r, m))
    ensures forall i | 0 <= i < |failed| :: Gone(DoDeliver(r, m, woken), failed[i])
  {
    hide Offered, Target;
  }

  lemma WakeGone(r: Reg, id: SubId)
    requires id in r.subs
    ensures Registered(r, id) && !Drained(r.subs[id].lane).1 ==> Gone(DoWake(r, id), id)
  {
    hide Drained, Pruned;
  }

  lemma TaskKeeps(s: State, e: TaskStep)
    requires TaskEnabled(s, e) && Good(s)
    ensures Good(TaskNext(s, e)) && Evolves(s, TaskNext(s, e))
  {
    TaskReg(s, e);
    TaskLedger(s, e);
    TaskWire(s, e);
    TaskReceipts(s, e);
    TaskOps(s, e);
    TaskPhase(s, e);
    TaskEvolves(s, e);
    hide RegGood, LedgerPart, WireGood, ReceiptsGood, OpsPart, TaskNext, PhaseGood, Evolves;
  }

  // ---------------------------------------------------------------- the network

  lemma ReachKeeps(w: Wire, n: nat, session: nat, up: bool)
    requires WireGood(w, session, up) && CanReach(w, n)
    ensures WireGood(Processed(w, n), session, up) && WireEvolves(w, Processed(w, n), session)
  {
    hide InTurn, DisposalGood;
  }

  lemma NetEvolves(s: State, n: nat)
    requires CanReach(s.wire, n) && Good(s)
    ensures Evolves(s, Next(s, Net(n)))
  {
    RegSame(s.reg);
    LedgerSame(s.ledger, s.session, LedgerBound(s), LedgerBound(s));
    ReceiptsSame(s.receipts);
    hide RegGood, LedgerGood, WireGood, ReceiptsGood, CanReach, RegEvolves, LedgerEvolves, ReceiptsEvolve, OpsPart;
  }

  /** The broker processing a frame changes nothing the client has. */
  lemma NetKeeps(s: State, n: nat)
    requires CanReach(s.wire, n) && Good(s)
    ensures Good(Next(s, Net(n))) && Evolves(s, Next(s, Net(n)))
  {
    ReachKeeps(s.wire, n, s.session, Up(s.phase));
    NetEvolves(s, n);
    var after := Next(s, Net(n));
    hide RegGood, LedgerGood, WireGood, ReceiptsGood, CanReach, Evolves, PhaseGood, OpsPart;
    OpsStayAll(s, after);
    assert PhaseGood(after) by { NetPhase(s, after); }
  }

  lemma NetPhase(s: State, after: State)
    requires PhaseGood(s) && after == s.(wire := after.wire)
    requires after.wire.queued == s.wire.queued && after.wire.disposed == s.wire.disposed
    ensures PhaseGood(after)
  {
  }
}
