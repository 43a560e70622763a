/** Acknowledgements: what one names, that no delivery is named twice, and how far a cumulative one reaches. */
module Acks {
  import opened Options
  import opened Types
  import opened Registry
  import opened Ledger
  import opened Wire
  import opened Halt
  import opened Client
  import opened Invariant
  import opened Delivery

  // ---------------------------------------------------------------- no delivery is named twice

  /** What only one frame may carry: the recorded delivery it names, or the receipt it asks for. */
  datatype Mark = ForDelivery(key: Key) | ForReceipt(receipt: ReceiptId)

  function OutMark(out: Out): Option<Mark> {
    match out
    case Ack(sub, _, _, serial) => Some(ForDelivery(Key(sub, serial)))
    case Plain(Some(r)) => Some(ForReceipt(r))
    case _ => None
  }

  function OpMark(op: Op): Option<Mark> {
    match op
    case Sending(out) => OutMark(out)
    case ReceiptSending(r) => Some(ForReceipt(r))
    case _ => None
  }

  /** At most one frame, ever queued or about to be, carries a mark. */
  ghost predicate NamedOnce(ops: map<Tid, Op>, queued: seq<Out>) {
    && (forall i, j | 0 <= i < j < |queued| && OutMark(queued[i]).Some? :: OutMark(queued[i]) != OutMark(queued[j]))
    && (forall i, t | 0 <= i < |queued| && OutMark(queued[i]).Some? && t in ops :: OutMark(queued[i]) != OpMark(ops[t]))
    && (forall t, u | t in ops && u in ops && t != u && OpMark(ops[t]).Some? :: OpMark(ops[t]) != OpMark(ops[u]))
  }

  /** Neither queued nor about to be. */
  ghost predicate Unmarked(ops: map<Tid, Op>, queued: seq<Out>, mark: Mark) {
    && (forall i | 0 <= i < |queued| :: OutMark(queued[i]) != Some(mark))
    && (forall t | t in ops :: OpMark(ops[t]) != Some(mark))
  }

  /** A task's operation ends, or goes on without a mark. */
  lemma OnceDropped(ops: map<Tid, Op>, queued: seq<Out>, t: Tid, n: map<Tid, Op>)
    requires NamedOnce(ops, queued) && n - {t} == ops - {t} && (t in n ==> OpMark(n[t]) == None)
    ensures NamedOnce(n, queued)
  {
    assert forall u | u in n && u != t :: u in n - {t} && n[u] == (ops - {t})[u];
    hide OpMark, OutMark;
  }

  /** An operation queues what it was about to. */
  lemma OnceQueued(ops: map<Tid, Op>, queued: seq<Out>, t: Tid, out: Out)
    requires NamedOnce(ops, queued) && t in ops && OpMark(ops[t]) == OutMark(out)
    ensures NamedOnce(ops - {t}, queued + [out])
  {
    hide OpMark, OutMark;
  }

  lemma OnceSent(ops: map<Tid, Op>, queued: seq<Out>, out: Out)
    requires NamedOnce(ops, queued) && OutMark(out) == None
    ensures NamedOnce(ops, queued + [out])
  {
    hide OpMark, OutMark;
  }

  lemma OnceNamed(ops: map<Tid, Op>, queued: seq<Out>, t: Tid, op: Op, mark: Mark)
    requires NamedOnce(ops, queued) && OpMark(op) == Some(mark) && Unmarked(ops, queued, mark)
    ensures NamedOnce(ops[t := op], queued)
  {
    hide OpMark, OutMark;
  }

  /** What is still outstanding no frame has named. */
  lemma OutstandingUnmarked(s: State, k: Key)
    requires OpsPart(s) && k in s.ledger.book && s.ledger.book[k].fate == Outstanding
    ensures Unmarked(s.ops, s.wire.queued, ForDelivery(k))
  {
    forall i | 0 <= i < |s.wire.queued|
      ensures OutMark(s.wire.queued[i]) != Some(ForDelivery(k))
    {
      assert OutGood(s, s.wire.queued[i]);
    }
    forall t | t in s.ops
      ensures OpMark(s.ops[t]) != Some(ForDelivery(k))
    {
      assert OpGood(s, s.ops[t]);
    }
  }

  /** A receipt id not given out yet is on no frame. */
  lemma NextUnmarked(s: State)
    requires OpsPart(s)
    ensures Unmarked(s.ops, s.wire.queued, ForReceipt(s.receipts.next))
  {
    forall i | 0 <= i < |s.wire.queued|
      ensures OutMark(s.wire.queued[i]) != Some(ForReceipt(s.receipts.next))
    {
      assert OutGood(s, s.wire.queued[i]);
    }
    forall t | t in s.ops
      ensures OpMark(s.ops[t]) != Some(ForReceipt(s.receipts.next))
    {
      assert OpGood(s, s.ops[t]);
    }
  }

  lemma SettleOnce(s: State, t: Tid, sub: SubId, named: Token, managed: Option<AckMode>)
    requires OpsPart(s) && LedgerPart(s) && NamedOnce(s.ops, s.wire.queued)
    ensures var n := DoSettle(s, t, sub, named, managed);
            NamedOnce(n.ops, n.wire.queued)
  {
    var q := QueueOf(s.ledger.pending, sub);
    var pos := Find(q, named);
    var n := DoSettle(s, t, sub, named, managed);
    hide OpsPart, LedgerGood, NamedOnce, Unmarked, Settled, Find;
    if pos < |q| {
      var k := Key(sub, q[pos].serial);
      SettleKeeps(s.ledger, sub, pos, IsCumulative(managed), s.session, LedgerBound(s));
      OutstandingUnmarked(s, k);
      OnceNamed(s.ops, s.wire.queued, t, Sending(AckOf(sub, q[pos])), ForDelivery(k));
    } else {
      OnceDropped(s.ops, s.wire.queued, t, n.ops);
    }
  }

  lemma AppOnce(s: State, e: AppStep)
    requires AppEnabled(s, e) && Good(s) && NamedOnce(s.ops, s.wire.queued)
    ensures NamedOnce(AppNext(s, e).ops, AppNext(s, e).wire.queued)
  {
    hide Good, NamedOnce, Unmarked;
    match e {
      case Settle(t) =>
        GoodParts(s);
        SettleOnce(s, t, s.ops[t].sub, s.ops[t].named, s.ops[t].managed);
        hide DoSettle;
      case RegisterReceipt(t) =>
        GoodParts(s);
        NextUnmarked(s);
        OnceNamed(s.ops, s.wire.queued, t, ReceiptSending(s.receipts.next), ForReceipt(s.receipts.next));
        hide Registering;
      case Enqueue(t) => OnceQueued(s.ops, s.wire.queued, t, OutOf(s.ops[t]));
      case _ => PlainOnce(s, e);
    }
  }

  /** Sections that neither name anything nor queue what was named. */
  lemma PlainOnce(s: State, e: AppStep)
    requires AppEnabled(s, e) && !e.Settle? && !e.RegisterReceipt? && !e.Enqueue?
    requires NamedOnce(s.ops, s.wire.queued)
    ensures NamedOnce(AppNext(s, e).ops, AppNext(s, e).wire.queued)
  {
    var n := AppNext(s, e);
    AppFrame(s, e);
    PlainMarks(s, e);
    AppLeaves(s, e);
    hide AppNext, NamedOnce, OpMark, OutMark;
    if InCall(e) && n.ops != s.ops {
      OnceDropped(s.ops, s.wire.queued, Actor(e), n.ops);
    }
    if |n.wire.queued| > |s.wire.queued| {
      var out := n.wire.queued[|s.wire.queued|];
      assert n.wire.queued == s.wire.queued + [out];
      OnceSent(n.ops, s.wire.queued, out);
    } else {
      assert n.wire.queued == s.wire.queued;
    }
  }

  lemma PlainMarks(s: State, e: AppStep)
    requires AppEnabled(s, e) && !e.Settle? && !e.RegisterReceipt? && !e.Enqueue?
    ensures var n := AppNext(s, e);
            && (InCall(e) && n.ops != s.ops && Actor(e) in n.ops ==> OpMark(n.ops[Actor(e)]) == None)
            && (|n.wire.queued| > |s.wire.queued| ==> OutMark(n.wire.queued[|s.wire.queued|]) == None)
  {
    hide Forgot, DoRegister, DoUnregister, DoClose, DoReceive, Registering, HandleClosed, Deregistered;
  }

  // ---------------------------------------------------------------- cumulative acknowledgement

  predicate IsSuffix(q: seq<Pend>, log: seq<Pend>) {
    |q| <= |log| && q == log[|log| - |q|..]
  }

  /** How many of this session's deliveries are no longer pending. */
  function Cursor(l: Ledger, id: SubId): int {
    |QueueOf(l.log, id)| - |QueueOf(l.pending, id)|
  }

  /** What is pending for a `client` subscription is the newest part of what the session recorded for it. */
  predicate SuffixPending(l: Ledger, id: SubId) {
    IsSuffix(QueueOf(l.pending, id), QueueOf(l.log, id))
  }

  ghost predicate CursorGood(s: State) {
    forall id | id in s.reg.subs && s.reg.subs[id].mode == Cumulative :: SuffixPending(s.ledger, id)
  }

  /**
   * A cumulative acknowledgement moves the cursor strictly forward, past the
   * delivery it names; an individual one elsewhere leaves it alone.
   */
  lemma SettleCursor(l: Ledger, sub: SubId, pos: nat, cumulative: bool, id: SubId)
    requires pos < |QueueOf(l.pending, sub)| && SuffixPending(l, id) && (id == sub ==> cumulative)
    ensures var n := Settled(l, sub, pos, cumulative);
            && SuffixPending(n, id)
            && (id == sub ==>
                  && Cursor(n, id) == Cursor(l, id) + pos + 1
                  && QueueOf(l.log, id)[Cursor(n, id) - 1] == QueueOf(l.pending, id)[pos])
            && (id != sub ==> Cursor(n, id) == Cursor(l, id))
  {
    SettledQueue(l, sub, pos, cumulative, id);
    hide Settled, LeftOver;
    if id == sub {
      SuffixDrop(QueueOf(l.pending, id), QueueOf(l.log, id), pos);
    }
  }

  lemma SettledQueue(l: Ledger, sub: SubId, pos: nat, cumulative: bool, id: SubId)
    requires pos < |QueueOf(l.pending, sub)|
    ensures var n := Settled(l, sub, pos, cumulative);
            && n.log == l.log
            && QueueOf(n.pending, id) == (if id != sub then QueueOf(l.pending, id)
                                          else if cumulative then QueueOf(l.pending, sub)[pos + 1..]
                                          else LeftOver(QueueOf(l.pending, sub), pos, false))
  {
  }

  lemma SuffixDrop(q: seq<Pend>, log: seq<Pend>, pos: nat)
    requires IsSuffix(q, log) && pos < |q|
    ensures IsSuffix(q[pos + 1..], log) && log[|log| - |q| + pos] == q[pos]
  {
  }

  lemma ForgetCursor(l: Ledger, ids: set<SubId>, why: Reason, id: SubId)
    requires SuffixPending(l, id)
    ensures SuffixPending(Forgot(l, ids, why), id) && Cursor(Forgot(l, ids, why), id) >= Cursor(l, id)
  {
  }

  /** Recording never moves it. */
  lemma RecordCursor(l: Ledger, ids: set<SubId>, p: Pend, id: SubId)
    requires SuffixPending(l, id)
    ensures SuffixPending(Recorded(l, ids, p), id) && Cursor(Recorded(l, ids, p), id) == Cursor(l, id)
  {
    GrownQueue(l.pending, ids, p, id);
    GrownQueue(l.log, ids, p, id);
    hide Grown;
  }

  lemma GrownQueue(queues: map<SubId, seq<Pend>>, ids: set<SubId>, p: Pend, id: SubId)
    ensures QueueOf(Grown(queues, ids, p), id) == QueueOf(queues, id) + if id in ids then [p] else []
  {
  }

  /** Within a session no section moves a cumulative cursor back. */
  ghost predicate CursorsForward(s: State, n: State) {
    forall id | id in n.reg.subs && n.reg.subs[id].mode == Cumulative ::
      && SuffixPending(n.ledger, id)
      && (id in s.reg.subs && n.session == s.session ==> Cursor(s.ledger, id) <= Cursor(n.ledger, id))
  }

  /** Until it registers, an id has nothing pending. */
  lemma SuffixAnyway(s: State, n: State, id: SubId)
    requires Evolves(s, n) && LedgerPart(s) && BookBacked(s) && CursorGood(s)
    requires id in n.reg.subs && n.reg.subs[id].mode == Cumulative
    ensures SuffixPending(s.ledger, id)
  {
    if id in s.reg.subs {
      assert s.reg.subs[id].mode == Cumulative;
    } else {
      if id in s.ledger.pending {
        PendingBacked(s, id);
      }
    }
  }

  lemma ForgetForward(s: State, n: State, ids: set<SubId>, why: Reason)
    requires Evolves(s, n) && LedgerPart(s) && BookBacked(s) && CursorGood(s)
    requires n.ledger == Forgot(s.ledger, ids, why)
    ensures CursorsForward(s, n)
  {
    forall id | id in n.reg.subs && n.reg.subs[id].mode == Cumulative
      ensures SuffixPending(n.ledger, id) && Cursor(s.ledger, id) <= Cursor(n.ledger, id)
    {
      SuffixAnyway(s, n, id);
      ForgetCursor(s.ledger, ids, why, id);
    }
  }

  lemma SameForward(s: State, n: State)
    requires Evolves(s, n) && LedgerPart(s) && BookBacked(s) && CursorGood(s)
    requires n.ledger == s.ledger
    ensures CursorsForward(s, n)
  {
    forall id | id in n.reg.subs && n.reg.subs[id].mode == Cumulative
      ensures SuffixPending(n.ledger, id)
    {
      SuffixAnyway(s, n, id);
    }
  }

  lemma SettleForward(s: State, n: State, t: Tid, sub: SubId, pos: nat, managed: Option<AckMode>)
    requires Evolves(s, n) && LedgerPart(s) && BookBacked(s) && CursorGood(s)
    requires OpGood(s, Settling(sub, 0, managed)) && n.reg == s.reg
    requires pos < |QueueOf(s.ledger.pending, sub)|
    requires n.ledger == Settled(s.ledger, sub, pos, IsCumulative(managed))
    ensures CursorsForward(s, n)
    ensures sub in s.reg.subs && s.reg.subs[sub].mode == Cumulative ==> Cursor(s.ledger, sub) < Cursor(n.ledger, sub)
  {
    hide LedgerPart, BookBacked, Settled;
    forall id | id in n.reg.subs && n.reg.subs[id].mode == Cumulative
      ensures SuffixPending(n.ledger, id) && Cursor(s.ledger, id) <= Cursor(n.ledger, id)
      ensures id == sub ==> Cursor(s.ledger, id) < Cursor(n.ledger, id)
    {
      SettleCursor(s.ledger, sub, pos, IsCumulative(managed), id);
    }
  }

  lemma AppForward(s: State, e: AppStep)
    requires AppEnabled(s, e) && Good(s) && BookBacked(s) && CursorGood(s)
    ensures CursorsForward(s, AppNext(s, e))
  {
    var n := AppNext(s, e);
    AppEvolves(s, e);
    if Actor(e) in s.ops {
      OpOf(s, Actor(e));
    }
    hide Good, BookBacked, CursorGood, CursorsForward, Evolves, LedgerPart;
    hide Settled, Forgot, Find, DoRegister, DoUnregister, DoClose, DoReceive, Registering, HandleClosed, Deregistered;
    assert LedgerPart(s) by { GoodParts(s); }
    match e {
      case UnsubForget(t) => ForgetForward(s, n, {s.ops[t].id}, Unsubscribing);
      case DropForget(t, locked) =>
        if locked {
          ForgetForward(s, n, {s.ops[t].id}, HandleDropped);
        } else {
          SameForward(s, n);
        }
      case Settle(t) =>
        var pos := Find(QueueOf(s.ledger.pending, s.ops[t].sub), s.ops[t].named);
        if pos < |QueueOf(s.ledger.pending, s.ops[t].sub)| {
          SettleForward(s, n, t, s.ops[t].sub, pos, s.ops[t].managed);
        } else {
          SameForward(s, n);
        }
      case _ =>
        AppPlainLedger(s, e);
        hide AppNext;
        SameForward(s, n);
    }
  }

  /** Application sections that leave the pending map alone. */
  lemma AppPlainLedger(s: State, e: AppStep)
    requires AppEnabled(s, e) && !e.UnsubForget? && !e.DropForget? && !e.Settle?
    ensures AppNext(s, e).ledger == s.ledger
  {
    hide DoRegister, DoUnregister, DoClose, DoReceive, Registering, HandleClosed, Deregistered;
  }

  lemma RecordForward(s: State, n: State, ids: set<SubId>, p: Pend)
    requires Evolves(s, n) && LedgerPart(s) && BookBacked(s) && CursorGood(s)
    requires n.ledger == Recorded(s.ledger, ids, p)
    ensures CursorsForward(s, n)
  {
    forall id | id in n.reg.subs && n.reg.subs[id].mode == Cumulative
      ensures SuffixPending(n.ledger, id) && Cursor(s.ledger, id) <= Cursor(n.ledger, id)
    {
      SuffixAnyway(s, n, id);
      RecordCursor(s.ledger, ids, p, id);
    }
  }

  lemma EndForward(s: State, n: State)
    requires n.ledger == SessionEnded(s.ledger) && n.session != s.session
    ensures CursorsForward(s, n)
  {
  }

  lemma TaskForward(s: State, e: TaskStep)
    requires TaskEnabled(s, e) && Good(s) && BookBacked(s) && CursorGood(s)
    ensures CursorsForward(s, TaskNext(s, e))
  {
    var n := TaskNext(s, e);
    TaskEvolves(s, e);
    GoodParts(s);
    if e.Record? {
      assert s.phase.m.msgId.Some?;
    }
    hide Good, BookBacked, CursorGood, CursorsForward, Evolves, LedgerPart, SessionEnded, Forgot, Recorded, PhaseGood;
    hide DoArrive, DoCollect, DoDelivery, DoTake, DoWriteDone, DoWaken, DoFailOne;
    hide DoClean, DoDeliver, DoWake, DoPrune, DoFail, DoBrokerError;
    hide DoExit, AckTargets, Lists, Woken, Overrun, Disposed;
    match e {
      case ForgetWritten => ForgetForward(s, n, {s.phase.id}, UnsubscribeSent);
      case Record => RecordForward(s, n, s.phase.targets, PendOf(s.phase.m));
      case Sweep => ForgetForward(s, n, s.ledger.pending.Keys - s.phase.live, Swept);
      case Unpend => ForgetForward(s, n, {s.phase.id}, ReceiverGone);
      case EndSession =>
        if s.halt.shuttingDown || TryOk(s.halt) {
          SameForward(s, n);
        } else {
          EndForward(s, n);
        }
      case _ =>
        PlainLedger(s, e);
        hide TaskNext;
        SameForward(s, n);
    }
  }

  // ---------------------------------------------------------------- individual acknowledgement

  /** The first whose `ack` value it is, or when there is none the first whose `message-id` it is. */
  lemma FindNames(q: seq<Pend>, named: Token)
    requires Find(q, named) < |q|
    ensures var pos := Find(q, named);
            if exists i :: 0 <= i < |q| && q[i].ackId == named
            then q[pos].ackId == named && (forall i | 0 <= i < pos :: q[i].ackId != named)
            else q[pos].msgId == named && (forall i | 0 <= i < pos :: q[i].msgId != named)
  {
  }

  predicate Ascending(q: seq<Pend>) {
    forall i, j | 0 <= i < j < |q| :: q[i].serial < q[j].serial
  }

  /** Taking one entry out of a queue loses no other and keeps their order. */
  lemma OthersRemain(q: seq<Pend>, pos: nat)
    requires pos < |q| && Ascending(q)
    ensures var rest := LeftOver(q, pos, false);
            && Ascending(rest)
            && (forall p | Holds(rest, p) :: Holds(q, p))
            && (forall p | Holds(q, p) :: Holds(rest, p) <==> p != q[pos])
  {
    var rest := LeftOver(q, pos, false);
    forall p
      ensures Holds(q, p) && p != q[pos] ==> Holds(rest, p)
      ensures Holds(rest, p) ==> Holds(q, p) && p != q[pos]
    {
      if Holds(q, p) && p != q[pos] {
        var i :| 0 <= i < |q| && q[i] == p;
        assert rest[if i > pos then i - 1 else i] == p;
      }
      if Holds(rest, p) {
        var i :| 0 <= i < |rest| && rest[i] == p;
        assert q[if i >= pos then i + 1 else i] == p;
      }
    }
  }

  /**
   * An individual acknowledgement takes out the entry its id names and no
   * other; the rest keep their order, other subscriptions their queues, and
   * every other delivery its fate.
   */
  lemma IndividualRemovesOne(l: Ledger, sub: SubId, named: Token, session: nat, bound: nat)
    requires LedgerGood(l, session, bound)
    requires Find(QueueOf(l.pending, sub), named) < |QueueOf(l.pending, sub)|
    ensures var q := QueueOf(l.pending, sub);
            var p := q[Find(q, named)];
            var n := Settled(l, sub, Find(q, named), false);
            && Ascending(QueueOf(n.pending, sub))
            && (forall o | Holds(q, o) :: Holds(QueueOf(n.pending, sub), o) <==> o != p)
            && (forall id | id != sub :: QueueOf(n.pending, id) == QueueOf(l.pending, id))
            && (forall k | k in l.book && k != Key(sub, p.serial) :: n.book[k] == l.book[k])
  {
    var q := QueueOf(l.pending, sub);
    assert QueueGood(l, sub, q, session);
    SettledElsewhere(l, sub, Find(q, named));
    hide Find, Settled, LedgerGood, Holds;
    OthersRemain(q, Find(q, named));
  }

  lemma SettledElsewhere(l: Ledger, sub: SubId, pos: nat)
    requires pos < |QueueOf(l.pending, sub)|
    ensures var n := Settled(l, sub, pos, false);
            && QueueOf(n.pending, sub) == LeftOver(QueueOf(l.pending, sub), pos, false)
            && (forall id | id != sub :: QueueOf(n.pending, id) == QueueOf(l.pending, id))
            && (forall k | k in l.book && k != Key(sub, QueueOf(l.pending, sub)[pos].serial) :: n.book[k] == l.book[k])
  {
  }
}
