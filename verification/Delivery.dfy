/**
 * Record before deliver, and why a recorded delivery was forgotten: the
 * invariant that ties the book of deliveries to the registry.
 */
module Delivery {
  import opened Lane
  import opened Types
  import opened Registry
  import opened Ledger
  import opened Wire
  import opened Client
  import opened Invariant
  import opened History

  /** A delivery is forgotten only for a reason that shows elsewhere. */
  predicate FateBacked(s: State, sub: SubId, fate: Fate) {
    fate.Forgotten? ==>
      match fate.why
      case SessionOver => true
      case Unsubscribing => Gone(s.reg, sub)
      case ReceiverGone => Gone(s.reg, sub)
      case Swept => Gone(s.reg, sub)
      case HandleDropped => sub in s.released
      case UnsubscribeSent => sub in s.released
  }

  predicate LineBacked(s: State, k: Key, line: Line) {
    && k.sub in s.reg.subs && s.reg.subs[k.sub].mode != Auto
    && FateBacked(s, k.sub, line.fate)
  }

  ghost predicate BookBacked(s: State) {
    forall k | k in s.ledger.book :: LineBacked(s, k, s.ledger.book[k])
  }

  /** `m` is in the book under `id` exactly when `id` existed as recording it was decided. */
  predicate RecordKept(l: Ledger, id: SubId, m: Message)
    requires m.msgId.Some?
  {
    && (Key(id, m.serial) in l.book <==> id < m.horizon)
    && (Key(id, m.serial) in l.book ==> l.book[Key(id, m.serial)].pend == PendOf(m))
  }

  predicate AcceptedKept(l: Ledger, id: SubId, accepted: seq<Message>) {
    forall i | 0 <= i < |accepted| && accepted[i].msgId.Some? :: RecordKept(l, id, accepted[i])
  }

  /** Every message a client-mode subscription accepted is recorded. */
  ghost predicate AllRecorded(s: State) {
    forall id | id in s.reg.subs && s.reg.subs[id].mode != Auto ::
      AcceptedKept(s.ledger, id, s.reg.subs[id].accepted)
  }

  /** What the message handler has established before each of its sections. */
  ghost predicate HandlerGood(s: State) {
    match s.phase
    case Recording(m, ids) =>
      && (forall id | id in ids :: id in s.reg.subs && s.reg.subs[id].mode != Auto && id < m.horizon)
      && (forall id: SubId | Acking(s.reg, id) && Target(s.reg, m, id) && id < m.horizon :: id in ids)
    case Delivering(m) =>
      m.msgId.Some? ==>
        forall id: SubId | Acking(s.reg, id) && Target(s.reg, m, id) :: RecordKept(s.ledger, id, m)
    case Sweeping(live, _) => forall id | id in s.ledger.pending && Registered(s.reg, id) :: id in live
    case _ => true
  }

  /** Serials below this may have been delivered. */
  function DeliveryBound(s: State): nat {
    if s.phase.Collecting? || s.phase.Recording? || s.phase.Delivering? then s.phase.m.serial else s.nextSerial
  }

  /** Before the parked frames of the last session are discarded. */
  predicate Early(p: Phase) {
    p.Boot? || p.Fresh? || p.Backoff? || p.Head? || p.Passed? || p.Dialing?
  }

  ghost predicate HistoryPart(s: State) {
    && Histories(s.reg, s.session, DeliveryBound(s))
    && (Early(s.phase) ==> NothingAnywhere(s.reg, s.session))
  }

  ghost predicate Delivered(s: State) {
    && HistoryPart(s)
    && BookBacked(s)
    && AllRecorded(s)
    && HandlerGood(s)
  }

  // ---------------------------------------------------------------- what stays

  /** No delivery is recorded, and each fate is kept or backed. */
  ghost predicate BookOnlySettles(s: State, n: State) {
    forall k | k in n.ledger.book ::
      k in s.ledger.book
      && (n.ledger.book[k].fate == s.ledger.book[k].fate || FateBacked(n, k.sub, n.ledger.book[k].fate))
  }

  lemma BackedStays(s: State, n: State)
    requires Evolves(s, n) && BookBacked(s) && BookOnlySettles(s, n)
    ensures BookBacked(n)
  {
    forall k | k in n.ledger.book
      ensures LineBacked(n, k, n.ledger.book[k])
    {
      assert LineBacked(s, k, s.ledger.book[k]);
    }
  }

  lemma RecordedStays(s: State, n: State)
    requires Evolves(s, n) && AllRecorded(s) && BookOnlySettles(s, n) && AcceptsNothing(s.reg, n.reg)
    ensures AllRecorded(n)
  {
    forall id | id in n.reg.subs && n.reg.subs[id].mode != Auto
      ensures AcceptedKept(n.ledger, id, n.reg.subs[id].accepted)
    {
      if id in s.reg.subs {
        KeptStays(s.ledger, n.ledger, id, s.reg.subs[id].accepted, s.session);
      }
    }
  }

  lemma KeptStays(l: Ledger, n: Ledger, id: SubId, accepted: seq<Message>, session: nat)
    requires LedgerEvolves(l, n, session) && AcceptedKept(l, id, accepted)
    requires forall k | k in n.book :: k in l.book
    ensures AcceptedKept(n, id, accepted)
  {
    forall i | 0 <= i < |accepted| && accepted[i].msgId.Some?
      ensures RecordKept(n, id, accepted[i])
    {
      assert RecordKept(l, id, accepted[i]);
    }
  }

  /** A pending queue belongs to a client-mode subscription. */
  lemma PendingBacked(s: State, id: SubId)
    requires LedgerPart(s) && BookBacked(s) && id in s.ledger.pending
    ensures id in s.reg.subs && s.reg.subs[id].mode != Auto
  {
    var q := s.ledger.pending[id];
    assert QueueGood(s.ledger, id, q, s.session);
    assert Outstands(s.ledger, id, q[0]);
    assert LineBacked(s, Key(id, q[0].serial), s.ledger.book[Key(id, q[0].serial)]);
  }

  lemma NoLineYet(s: State, id: SubId, serial: nat)
    requires BookBacked(s)
    ensures Key(id, serial) in s.ledger.book ==> id in s.reg.subs
  {
    if Key(id, serial) in s.ledger.book {
      assert LineBacked(s, Key(id, serial), s.ledger.book[Key(id, serial)]);
    }
  }

  /** Sections that record nothing and leave the handler where it is keep what it established. */
  lemma HandlerStays(s: State, n: State)
    requires Evolves(s, n) && RegGood(s.reg) && LedgerPart(s) && BookBacked(s) && HandlerGood(s) && PhaseGood(s)
    requires n.phase == s.phase && BookOnlySettles(s, n)
    requires n.ledger.pending.Keys <= s.ledger.pending.Keys
    ensures HandlerGood(n)
  {
    hide LedgerGood, ReceiptsEvolve, RegGood, WakeGood;
    match s.phase {
      case Recording(m, ids) =>
        forall id: SubId | Acking(n.reg, id) && Target(n.reg, m, id) && id < m.horizon
          ensures id in ids
        {
          assert id in s.reg.subs;
          assert Acking(s.reg, id) && Target(s.reg, m, id);
        }
      case Delivering(m) =>
        if m.msgId.Some? {
          forall id: SubId | Acking(n.reg, id) && Target(n.reg, m, id)
            ensures RecordKept(n.ledger, id, m)
          {
            if id in s.reg.subs {
              assert Acking(s.reg, id) && Target(s.reg, m, id);
              assert RecordKept(s.ledger, id, m);
            } else {
              NoLineYet(s, id, m.serial);
            }
          }
        }
      case Sweeping(live, _) =>
        forall id | id in n.ledger.pending && Registered(n.reg, id)
          ensures id in live
        {
          PendingBacked(s, id);
        }
      case _ =>
    }
  }

  // ---------------------------------------------------------------- application sections

  lemma AppHistories(s: State, e: AppStep)
    requires AppEnabled(s, e) && RegGood(s.reg) && HistoryPart(s)
    ensures HistoryPart(AppNext(s, e)) && AcceptsNothing(s.reg, AppNext(s, e).reg)
  {
    var bound := DeliveryBound(s);
    hide RegGood, Histories, NothingAnywhere, AcceptsNothing, Settled, Forgot, Find;
    hide DoRegister, DoUnregister, DoClose, DoReceive;
    SameAccepted(s.reg);
    match e {
      case Register(_, dest, mode, limit, capacity) =>
        RegisterHistories(s.reg, dest, mode, limit, capacity, s.session, bound);
      case Unregister(_, id) => UnregisterHistories(s.reg, id, s.session, bound);
      case DropHandle(_, id, _) => UnregisterHistories(s.reg, id, s.session, bound);
      case DropSend(t, _) => CloseHistories(s.reg, s.ops[t].id, s.session, bound);
      case Cancel(t) =>
        if s.ops[t].Subscribing? {
          CloseHistories(s.reg, s.ops[t].id, s.session, bound);
        }
      case Receive(id) => ReceiveHistories(s.reg, id, s.session, bound);
      case CloseReceiver(id) => CloseHistories(s.reg, id, s.session, bound);
      case _ =>
    }
    NothingStays(s.reg, AppNext(s, e).reg, s.session);
  }

  lemma SameAccepted(r: Reg)
    ensures AcceptsNothing(r, r)
  {
  }

  lemma NothingStays(r: Reg, n: Reg, session: nat)
    requires AcceptsNothing(r, n)
    ensures NothingAnywhere(r, session) ==> NothingAnywhere(n, session)
  {
  }

  lemma ForgotBook(l: Ledger, ids: set<SubId>, why: Reason)
    ensures var n := Forgot(l, ids, why);
            && n.pending.Keys <= l.pending.Keys
            && forall k | k in n.book ::
                 k in l.book && (n.book[k].fate == l.book[k].fate || (k.sub in ids && n.book[k].fate == Forgotten(why)))
  {
  }

  lemma SettledBook(l: Ledger, sub: SubId, pos: nat, cumulative: bool)
    requires pos < |QueueOf(l.pending, sub)|
    ensures var n := Settled(l, sub, pos, cumulative);
            && n.pending.Keys <= l.pending.Keys
            && forall k | k in n.book ::
                 && k in l.book
                 && (n.book[k].fate == l.book[k].fate || n.book[k].fate == Named || n.book[k].fate == Covered)
  {
  }

  lemma AppSettles(s: State, e: AppStep)
    requires AppEnabled(s, e) && OpsPart(s)
    ensures BookOnlySettles(s, AppNext(s, e))
    ensures AppNext(s, e).ledger.pending.Keys <= s.ledger.pending.Keys
  {
    hide OpsPart, Forgot, Settled, Find, DoRegister, DoUnregister, DoClose, DoReceive;
    match e {
      case UnsubForget(t) =>
        OpOf(s, t);
        ForgotBook(s.ledger, {s.ops[t].id}, Unsubscribing);
      case DropForget(t, _) =>
        OpOf(s, t);
        ForgotBook(s.ledger, {s.ops[t].id}, HandleDropped);
      case Settle(t) =>
        var pos := Find(QueueOf(s.ledger.pending, s.ops[t].sub), s.ops[t].named);
        if pos < |QueueOf(s.ledger.pending, s.ops[t].sub)| {
          SettledBook(s.ledger, s.ops[t].sub, pos, IsCumulative(s.ops[t].managed));
        }
      case _ =>
    }
  }

  lemma AppDelivered(s: State, e: AppStep)
    requires AppEnabled(s, e) && Good(s) && Delivered(s)
    ensures Delivered(AppNext(s, e))
  {
    var n := AppNext(s, e);
    AppEvolves(s, e);
    AppFrame(s, e);
    AppHistories(s, e);
    AppSettles(s, e);
    hide RegGood, LedgerPart, WireGood, ReceiptsGood, OpsPart, PhaseGood, Evolves, AppNext;
    hide HistoryPart, BookBacked, AllRecorded, HandlerGood, BookOnlySettles, AcceptsNothing;
    BackedStays(s, n);
    RecordedStays(s, n);
    HandlerStays(s, n);
  }

  // ---------------------------------------------------------------- I/O task sections

  lemma TaskHistories(s: State, e: TaskStep)
    requires TaskEnabled(s, e) && RegGood(s.reg) && PhaseGood(s) && HistoryPart(s)
    ensures HistoryPart(TaskNext(s, e))
    ensures !e.Deliver? ==> AcceptsNothing(s.reg, TaskNext(s, e).reg)
  {
    var bound := DeliveryBound(s);
    hide RegGood, Histories, NothingAnywhere, AcceptsNothing, Forgot, DoRecord, SessionEnded, DoArrive, DoCollect;
    hide DoClean, DoDeliver, DoWake, DoPrune, DoFail, DoBrokerError;
    hide DoExit, AckTargets, Lists, Woken, Overrun, Disposed;
    SameAccepted(s.reg);
    match e {
      case Clean => CleanHistories(s.reg, s.session, bound);
      case Arrive(dest, sub, msgId, ackId) =>
        LaterHistories(s.reg, s.session, bound, s.nextSerial + 1);
        ArriveBound(s, Incoming(s, dest, sub, msgId, ackId));
      case Collect => CollectBound(s, s.phase.m);
      case Record => RecordBound(s, s.phase.m, s.phase.targets);
      case Deliver(woken, _) => DeliveryHistories(s, s.phase.m, woken);
      case FailOne(_) =>
        if s.phase.failed != [] {
          FailHistories(s.reg, s.phase.failed[0], s.session, bound);
        }
      case Wake(id) => WakeHistories(s.reg, id, s.session, bound);
      case Prune => PruneHistories(s.reg, s.session, bound);
      case BrokerError(dest, message) => BrokerErrorHistories(s.reg, dest, message, s.session, bound);
      case EndSession => AdvanceHistories(s.reg, s.session, bound);
      case Exit => ExitHistories(s.reg, s.session, bound);
      case _ =>
        OtherHistory(s, e);
        hide TaskNext;
    }
  }

  /** Sections that leave the registry and the message in hand alone. */
  lemma OtherHistory(s: State, e: TaskStep)
    requires TaskEnabled(s, e) && !e.Arrive? && !e.Collect? && !e.Record? && !e.Deliver? && !e.EndSession?
    requires !e.Clean? && !e.FailOne? && !e.Wake? && !e.Prune? && !e.BrokerError? && !e.Exit?
    ensures var n := TaskNext(s, e);
            && n.reg == s.reg && n.session == s.session && DeliveryBound(n) == DeliveryBound(s)
            && (Early(n.phase) ==> Early(s.phase))
  {
    hide Forgot, RegisteredIds, Lists, Disposed;
  }

  lemma ArriveBound(s: State, m: Message)
    requires s.phase.Idle? && m.serial == s.nextSerial
    ensures var n := DoArrive(s, m);
            && n.reg == s.reg && n.ledger == s.ledger && n.session == s.session && !Early(n.phase)
            && (DeliveryBound(n) == s.nextSerial || DeliveryBound(n) == s.nextSerial + 1)
  {
    hide AckTargets;
  }

  lemma CollectBound(s: State, m: Message)
    requires s.phase == Collecting(m)
    ensures var n := DoCollect(s, m);
            && n.reg == s.reg && n.ledger == s.ledger && n.session == s.session
            && !Early(n.phase) && DeliveryBound(n) == DeliveryBound(s)
  {
    hide AckTargets;
  }

  lemma RecordBound(s: State, m: Message, ids: set<SubId>)
    requires s.phase == Recording(m, ids)
    ensures var n := DoRecord(s, m, ids);
            n.reg == s.reg && n.session == s.session && !Early(n.phase) && DeliveryBound(n) == DeliveryBound(s)
  {
  }

  lemma FailHistories(r: Reg, id: SubId, session: nat, bound: nat)
    requires Histories(r, session, bound)
    ensures Histories(DoFail(r, id), session, bound) && AcceptsNothing(r, DoFail(r, id))
  {
  }

  lemma PruneHistories(r: Reg, session: nat, bound: nat)
    requires Histories(r, session, bound)
    ensures Histories(DoPrune(r), session, bound) && AcceptsNothing(r, DoPrune(r))
  {
  }

  lemma DeliveryHistories(s: State, m: Message, woken: seq<SubId>)
    requires s.phase == Delivering(m) && PhaseGood(s) && RegGood(s.reg) && HistoryPart(s)
    ensures Histories(DoDeliver(s.reg, m, woken), s.session, s.nextSerial)
    ensures Histories(s.reg, s.session, s.nextSerial)
  {
    hide RegGood, Histories, DoDeliver;
    DeliverHistories(s.reg, m, woken, m.serial);
    LaterHistories(DoDeliver(s.reg, m, woken), s.session, m.serial + 1, s.nextSerial);
    LaterHistories(s.reg, s.session, m.serial, s.nextSerial);
  }

  /** Sections other than recording. */
  lemma TaskSettles(s: State, e: TaskStep)
    requires TaskEnabled(s, e) && Good(s) && BookBacked(s) && HandlerGood(s) && !e.Record?
    ensures BookOnlySettles(s, TaskNext(s, e))
    ensures TaskNext(s, e).ledger.pending.Keys <= s.ledger.pending.Keys
  {
    hide RegGood, LedgerPart, WireGood, ReceiptsGood, OpsPart, HandlerGood, BookBacked, PhaseGood;
    hide DoClean, DoDeliver, DoWake, DoPrune, DoFail, DoBrokerError;
    hide DoExit, AckTargets, Lists, Woken, Overrun, Disposed;
    hide DoSweep, Forgot, DoArrive, DoCollect, DoRecord, DoDelivery;
    match e {
      case ForgetWritten => ForgotBook(s.ledger, {s.phase.id}, UnsubscribeSent);
      case Sweep => SweepSettles(s, s.phase.live, s.phase.failed);
      case Unpend =>
        ForgotBook(s.ledger, {s.phase.id}, ReceiverGone);
        assert Gone(s.reg, s.phase.id) by { UnpendingGone(s); }
      case EndSession => ForgotBook(s.ledger, s.ledger.pending.Keys, SessionOver);
      case _ =>
        PlainLedger(s, e);
        hide TaskNext;
    }
  }

  lemma UnpendingGone(s: State)
    requires PhaseGood(s) && s.phase.Unpending?
    ensures Gone(s.reg, s.phase.id)
  {
  }

  lemma SweepSettles(s: State, live: set<SubId>, failed: seq<SubId>)
    requires s.phase == Sweeping(live, failed) && LedgerPart(s) && BookBacked(s) && HandlerGood(s)
    ensures BookOnlySettles(s, DoSweep(s, live, failed))
    ensures DoSweep(s, live, failed).ledger.pending.Keys <= s.ledger.pending.Keys
  {
    forall id | id in s.ledger.pending.Keys - live
      ensures Gone(s.reg, id)
    {
      PendingBacked(s, id);
    }
    ForgotBook(s.ledger, s.ledger.pending.Keys - live, Swept);
    hide LedgerPart, BookBacked, HandlerGood, Forgot;
  }

  /** A MESSAGE that names a subscription, or finds nobody to record it for, needs no second look. */
  lemma ArriveHandler(s: State, m: Message)
    requires s.phase.Idle? && RegGood(s.reg) && m.horizon == s.reg.nextId
    ensures HandlerGood(DoArrive(s, m))
  {
    hide RegGood;
    if m.msgId.Some? && m.sub.None? && AckTargets(s.reg, m) == {} {
      NoneTargeted(s.reg, m);
    }
    if m.sub.Some? && Acking(s.reg, m.sub.value) {
      IdBelow(s.reg, m.sub.value);
    }
  }

  lemma NoneTargeted(r: Reg, m: Message)
    requires AckTargets(r, m) == {}
    ensures forall id: SubId | Acking(r, id) :: !Target(r, m, id)
  {
    assert forall id: SubId :: Acking(r, id) && Target(r, m, id) ==> id in AckTargets(r, m);
  }

  lemma IdBelow(r: Reg, id: SubId)
    requires RegGood(r) && id in r.subs
    ensures id < r.nextId
  {
  }

  lemma CollectHandler(s: State, m: Message)
    requires s.phase == Collecting(m) && RegGood(s.reg)
    ensures HandlerGood(DoCollect(s, m))
  {
    var seen := m.(horizon := s.reg.nextId);
    assert forall id: SubId :: Target(s.reg, seen, id) <==> Target(s.reg, m, id);
    if AckTargets(s.reg, m) == {} {
      NoneTargeted(s.reg, m);
    } else {
      forall id | id in AckTargets(s.reg, m)
        ensures id < s.reg.nextId
      {
        IdBelow(s.reg, id);
      }
    }
    hide RegGood;
  }

  lemma OtherHandler(s: State, e: TaskStep)
    requires TaskEnabled(s, e) && !e.Arrive? && !e.Collect? && !e.Record? && !e.Deliver?
    ensures HandlerGood(TaskNext(s, e))
  {
    hide DoClean, DoWake, DoPrune, DoFail, DoBrokerError, DoExit, Disposed, Forgot, SessionEnded, Answered, Drained;
  }

  /** Sections that neither record nor deliver. */
  lemma OtherDelivered(s: State, e: TaskStep)
    requires TaskEnabled(s, e) && Good(s) && Delivered(s) && !e.Record? && !e.Deliver?
    ensures Delivered(TaskNext(s, e))
  {
    var n := TaskNext(s, e);
    TaskEvolves(s, e);
    TaskHistories(s, e);
    TaskSettles(s, e);
    if e.Arrive? {
      ArriveHandler(s, Incoming(s, e.dest, e.sub, e.msgId, e.ackId));
    } else if e.Collect? {
      CollectHandler(s, s.phase.m);
    } else {
      OtherHandler(s, e);
    }
    assert HandlerGood(n);
    hide RegGood, LedgerPart, WireGood, ReceiptsGood, OpsPart, PhaseGood, Evolves, TaskNext;
    hide HistoryPart, BookBacked, AllRecorded, HandlerGood, BookOnlySettles, AcceptsNothing;
    BackedStays(s, n);
    RecordedStays(s, n);
  }

  // ---------------------------------------------------------------- recording, then delivering

  lemma RecordDelivered(s: State, m: Message, ids: set<SubId>)
    requires s.phase == Recording(m, ids) && Good(s) && Delivered(s)
    ensures Delivered(DoRecord(s, m, ids))
  {
    var n := DoRecord(s, m, ids);
    RecordBound(s, m, ids);
    assert HistoryPart(n);
    forall k | k in n.ledger.book
      ensures LineBacked(n, k, n.ledger.book[k])
    {
      if k in s.ledger.book {
        assert LineBacked(s, k, s.ledger.book[k]);
      }
    }
    hide HistoryPart, Recorded, LedgerPart, LineBacked;
    RecordKeepsOlder(s, m, ids);
    RecordHandler(s, m, ids);
  }

  /** A new line is for a message later than any accepted so far. */
  lemma RecordKeepsOlder(s: State, m: Message, ids: set<SubId>)
    requires s.phase == Recording(m, ids) && PhaseGood(s) && HistoryPart(s) && AllRecorded(s)
    ensures AllRecorded(DoRecord(s, m, ids))
  {
    var n := DoRecord(s, m, ids);
    forall id | id in n.reg.subs && n.reg.subs[id].mode != Auto
      ensures AcceptedKept(n.ledger, id, n.reg.subs[id].accepted)
    {
      var accepted := s.reg.subs[id].accepted;
      assert HistoryGood(s.reg.subs[id], s.session, m.serial);
      forall i | 0 <= i < |accepted| && accepted[i].msgId.Some?
        ensures RecordKept(n.ledger, id, accepted[i])
      {
        assert accepted[i].serial < m.serial;
        assert RecordKept(s.ledger, id, accepted[i]);
        RecordOther(s.ledger, ids, PendOf(m), Key(id, accepted[i].serial));
      }
    }
  }

  lemma RecordOther(l: Ledger, ids: set<SubId>, p: Pend, k: Key)
    requires k.serial != p.serial
    ensures k in Recorded(l, ids, p).book <==> k in l.book
    ensures k in l.book ==> Recorded(l, ids, p).book[k] == l.book[k]
  {
  }

  lemma RecordHandler(s: State, m: Message, ids: set<SubId>)
    requires s.phase == Recording(m, ids) && PhaseGood(s) && LedgerPart(s) && HandlerGood(s)
    ensures HandlerGood(DoRecord(s, m, ids))
  {
    var n := DoRecord(s, m, ids);
    forall id: SubId | Acking(n.reg, id) && Target(n.reg, m, id)
      ensures RecordKept(n.ledger, id, m)
    {
      RecordHere(s.ledger, ids, PendOf(m), id, s.session);
    }
  }

  lemma KeyBelow(l: Ledger, k: Key, session: nat, bound: nat)
    requires LedgerGood(l, session, bound)
    ensures k in l.book ==> k.serial < bound
  {
    if k in l.book {
      assert LineGood(l, k, l.book[k], session, bound);
    }
  }

  lemma RecordHere(l: Ledger, ids: set<SubId>, p: Pend, id: SubId, session: nat)
    requires LedgerGood(l, session, p.serial)
    ensures Key(id, p.serial) in Recorded(l, ids, p).book <==> id in ids
    ensures id in ids ==> Recorded(l, ids, p).book[Key(id, p.serial)] == Line(p, Outstanding)
  {
    RecordOutstands(l, ids, p, id);
    KeyBelow(l, Key(id, p.serial), session, p.serial);
  }

  lemma DeliverDelivered(s: State, e: TaskStep)
    requires e.Deliver? && TaskEnabled(s, e) && Good(s) && Delivered(s)
    ensures Delivered(TaskNext(s, e))
  {
    var n := TaskNext(s, e);
    TaskEvolves(s, e);
    TaskHistories(s, e);
    TaskSettles(s, e);
    hide LedgerPart, WireGood, ReceiptsGood, OpsPart, Evolves;
    hide HistoryPart, BookBacked, BookOnlySettles;
    BackedStays(s, n);
    DeliverRecorded(s, s.phase.m, e.woken, e.failed);
    hide RegGood, AllRecorded, DoDeliver, PhaseGood, Lists;
    PendingRegistered(s, n);
  }

  lemma PendingRegistered(s: State, n: State)
    requires n.phase.Sweeping? ==> n.phase.live == RegisteredIds(n.reg)
    requires !n.phase.Recording? && !n.phase.Delivering?
    ensures HandlerGood(n)
  {
  }

  /** What is accepted in this pass was recorded before it. */
  lemma DeliverRecorded(s: State, m: Message, woken: seq<SubId>, failed: seq<SubId>)
    requires s.phase == Delivering(m) && PhaseGood(s) && RegGood(s.reg)
    requires HistoryPart(s) && AllRecorded(s) && HandlerGood(s)
    ensures AllRecorded(DoDelivery(s, m, woken, failed))
  {
    hide Histories, RegGood;
    DeliverHistories(s.reg, m, woken, m.serial);
    var n := DoDelivery(s, m, woken, failed);
    hide DoDeliver;
    forall id | id in n.reg.subs && n.reg.subs[id].mode != Auto
      ensures AcceptedKept(n.ledger, id, n.reg.subs[id].accepted)
    {
      DeliverModes(s.reg, m, woken, id);
      assert AcceptedKept(s.ledger, id, s.reg.subs[id].accepted);
    }
  }

  lemma DeliverModes(r: Reg, m: Message, woken: seq<SubId>, id: SubId)
    ensures id in DoDeliver(r, m, woken).subs <==> id in r.subs
    ensures id in r.subs ==> DoDeliver(r, m, woken).subs[id].mode == r.subs[id].mode
  {
    hide Offered;
  }

  lemma TaskDelivered(s: State, e: TaskStep)
    requires TaskEnabled(s, e) && Good(s) && Delivered(s)
    ensures Delivered(TaskNext(s, e))
  {
    hide Good, Delivered;
    match e {
      case Record => RecordDelivered(s, s.phase.m, s.phase.targets);
      case Deliver(_, _) => DeliverDelivered(s, e);
      case _ => OtherDelivered(s, e);
    }
  }

  /** Nor does the broker processing a frame change any of this. */
  lemma NetDelivered(s: State, after: State)
    requires Delivered(s) && after == s.(wire := after.wire)
    ensures Delivered(after)
  {
    hide Histories, NothingAnywhere, AcceptedKept, RecordKept;
    assert forall k | k in after.ledger.book :: LineBacked(s, k, s.ledger.book[k]);
  }
}
