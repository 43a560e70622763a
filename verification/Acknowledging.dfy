/** Acknowledgements over every run: which ACK and NACK frames are sent, and what becomes of each recorded delivery. */
module Acknowledging {
  import opened Options
  import opened Types
  import opened Registry
  import opened Ledger
  import opened Wire
  import opened Client
  import opened Invariant
  import opened Delivery
  import opened Acks
  import opened Runs

  // ---------------------------------------------------------------- what an acknowledgement names

  /** The step that recorded a delivery: under the subscription, in the session, with the ids of its MESSAGE. */
  ghost predicate RecordedAt(states: seq<State>, steps: seq<Step>, j: nat, k: Key, p: Pend)
    requires j < |steps| && j < |states|
  {
    && steps[j] == Io(Record) && states[j].phase.Recording?
    && k.sub in states[j].phase.targets
    && states[j].phase.m.msgId.Some? && PendOf(states[j].phase.m) == p
    && states[j].session == p.session
  }

  /** Only the recording section adds to the book, and only what is in its hands. */
  lemma OnlyRecordAdds(s: State, e: Step, k: Key)
    requires Enabled(s, e) && Sound(s) && k !in s.ledger.book && k in Next(s, e).ledger.book
    ensures e == Io(Record) && s.phase.Recording? && k.sub in s.phase.targets
    ensures s.phase.m.msgId.Some? && s.phase.m.session == s.session
    ensures Next(s, e).ledger.book[k].pend == PendOf(s.phase.m)
  {
    SoundParts(s);
    hide Sound, AppNext;
    if e != Io(Record) {
      AddsNothing(s, e);
    } else {
      hide TaskNext;
      RecordAdds(s, k);
    }
  }

  lemma AddsNothing(s: State, e: Step)
    requires Enabled(s, e) && Sound(s) && e != Io(Record)
    ensures forall k | k in Next(s, e).ledger.book :: k in s.ledger.book
  {
    hide AppNext, TaskNext, AppEnabled, TaskEnabled;
    match e {
      case App(a) => AppSettles(s, a);
      case Io(i) => TaskSettles(s, i);
      case Net(n) =>
    }
  }

  lemma RecordAdds(s: State, k: Key)
    requires TaskEnabled(s, Record) && PhaseGood(s) && k !in s.ledger.book && k in TaskNext(s, Record).ledger.book
    ensures s.phase.Recording? && k.sub in s.phase.targets
    ensures s.phase.m.msgId.Some? && s.phase.m.session == s.session
    ensures TaskNext(s, Record).ledger.book[k].pend == PendOf(s.phase.m)
  {
  }

  /** Whatever is in the book was recorded by some step, in the session its line names. */
  lemma {:induction false} LineWasRecorded(states: seq<State>, steps: seq<Step>, i: nat, k: Key)
    requires IsRun(states, steps) && i < |states| && k in states[i].ledger.book
    ensures exists j | 0 <= j < i :: RecordedAt(states, steps, j, k, states[i].ledger.book[k].pend)
  {
    hide Sound, Enabled, Next, Follows;
    if i > 0 {
      RunSound(states, steps, i - 1);
      if k in states[i - 1].ledger.book {
        LineWasRecorded(states, steps, i - 1, k);
        RunFollows(states, steps, i - 1, i);
        PendKept(states[i - 1], states[i], k);
      } else {
        OnlyRecordAdds(states[i - 1], steps[i - 1], k);
        assert RecordedAt(states, steps, i - 1, k, states[i].ledger.book[k].pend);
      }
    }
  }

  lemma PendKept(s: State, n: State, k: Key)
    requires Follows(s, n) && k in s.ledger.book
    ensures k in n.ledger.book && n.ledger.book[k].pend == s.ledger.book[k].pend
  {
  }

  /**
   * A frame that acknowledges a pending delivery, when it was written in session
   * `s`, carries the ack id, under the same subscription, of a MESSAGE recorded
   * in session `s`. `Given` has the ACK and NACK frames that name no delivery.
   */
  lemma NoStaleAck(states: seq<State>, steps: seq<Step>, i: nat, n: nat)
    requires IsRun(states, steps) && i < |states|
    requires n < |states[i].wire.disposed| <= |states[i].wire.queued|
    requires states[i].wire.queued[n].Ack? && states[i].wire.disposed[n].Handed?
    ensures var ack := states[i].wire.queued[n];
            var written := states[i].wire.disposed[n].session;
            var k := Key(ack.sub, ack.serial);
            && k in states[i].ledger.book
            && states[i].ledger.book[k].pend.ackId == ack.ackId
            && states[i].ledger.book[k].pend.session == written
            && exists j | 0 <= j < i :: RecordedAt(states, steps, j, k, states[i].ledger.book[k].pend)
  {
    RunSound(states, steps, i);
    var s := states[i];
    var ack := s.wire.queued[n];
    assert OutGood(s, ack);
    assert DisposalGood(ack, s.wire.disposed[n], s.session);
    hide Sound;
    LineWasRecorded(states, steps, i, Key(ack.sub, ack.serial));
  }

  /**
   * Once a session is over, no acknowledgement issued in it is ever written
   * again: neither one still queued, nor one an application is yet to queue.
   */
  lemma StaleNeverWritten(states: seq<State>, steps: seq<Step>, i: nat, j: nat, n: nat)
    requires IsRun(states, steps) && i <= j < |states|
    requires |states[i].wire.disposed| <= n < |states[j].wire.disposed| <= |states[j].wire.queued|
    requires states[j].wire.queued[n].Ack? && states[j].wire.queued[n].session < states[i].session
    ensures states[j].wire.disposed[n] == Stale
  {
    RunSound(states, steps, j);
    RunFollows(states, steps, i, j);
    assert DisposalGood(states[j].wire.queued[n], states[j].wire.disposed[n], states[j].session);
  }

  /** While there is no connection, acknowledging on a client-mode subscription queues nothing. */
  lemma NothingAckedWhileDown(states: seq<State>, steps: seq<Step>, i: nat, t: Tid)
    requires IsRun(states, steps) && i < |states| && Quiet(states[i].phase) && AppEnabled(states[i], Settle(t))
    requires states[i].ops[t].managed == Some(Cumulative) || states[i].ops[t].managed == Some(Individual)
    ensures AppNext(states[i], Settle(t)) == states[i].(ops := states[i].ops - {t})
  {
    RunSound(states, steps, i);
    hide IsRun, AppEnabled, AppNext;
    QuietPending(states[i]);
    hide Sound;
    NothingSettled(states[i], t);
  }

  lemma NothingSettled(s: State, t: Tid)
    requires s.ledger.pending == map[] && AppEnabled(s, Settle(t))
    requires s.ops[t].managed == Some(Cumulative) || s.ops[t].managed == Some(Individual)
    ensures AppNext(s, Settle(t)) == s.(ops := s.ops - {t})
  {
    NothingToSettle(s, t, s.ops[t].sub, s.ops[t].named, s.ops[t].managed);
    hide DoSettle;
  }

  lemma QuietPending(s: State)
    requires Sound(s) && Quiet(s.phase)
    ensures s.ledger.pending == map[]
  {
  }

  lemma NothingToSettle(s: State, t: Tid, sub: SubId, named: Token, managed: Option<AckMode>)
    requires s.ledger.pending == map[] && (managed == Some(Cumulative) || managed == Some(Individual))
    ensures DoSettle(s, t, sub, named, managed) == s.(ops := s.ops - {t})
  {
  }

  /** From behind step `j` on, up to `i`, task `t` is in this operation: the call that step put it in. */
  predicate HeldSince(states: seq<State>, j: nat, i: nat, t: Tid, op: Op)
    requires i < |states|
  {
    forall k | j < k <= i :: t in states[k].ops && states[k].ops[t] == op
  }

  /** The ack mode a call acts on is the one the registry gave when that call began. */
  lemma {:induction false} ModeWasRead(states: seq<State>, steps: seq<Step>, i: nat, t: Tid, op: Op)
    requires IsRun(states, steps) && i < |states|
    requires t in states[i].ops && states[i].ops[t] == op && op.Settling?
    ensures exists j | 0 <= j < i ::
              && steps[j] == App(BeginAck(t, op.sub, op.named)) && ModeOf(states[j].reg, op.sub) == op.managed
              && HeldSince(states, j, i, t, op)
  {
    if i > 0 {
      ModeReadBy(states[i - 1], steps[i - 1], t, op);
      hide IsRun, Enabled, Next, ModeOf;
      if t in states[i - 1].ops && states[i - 1].ops[t] == op {
        ModeWasRead(states, steps, i - 1, t, op);
        var j :| 0 <= j < i - 1 && steps[j] == App(BeginAck(t, op.sub, op.named))
                 && ModeOf(states[j].reg, op.sub) == op.managed && HeldSince(states, j, i - 1, t, op);
        assert HeldSince(states, j, i, t, op);
      } else {
        assert HeldSince(states, i - 1, i, t, op);
      }
    }
  }

  lemma ModeReadBy(s: State, e: Step, t: Tid, op: Op)
    requires Enabled(s, e) && t in Next(s, e).ops && Next(s, e).ops[t] == op && op.Settling?
    ensures (t in s.ops && s.ops[t] == op)
         || (e == App(BeginAck(t, op.sub, op.named)) && ModeOf(s.reg, op.sub) == op.managed)
  {
    hide Settled, Forgot, Find, DoRegister, DoUnregister;
    hide DoClose, DoReceive, ModeOf, Registered, Recorded, SessionEnded;
    hide DoClean, DoDeliver, DoWake, DoPrune, DoFail, DoBrokerError;
    hide DoExit, AckTargets, Lists, Woken, Overrun, Disposed;
  }

  /** No two of those frames ever queued name the same delivery. */
  lemma NeverNamedTwice(states: seq<State>, steps: seq<Step>, i: nat, a: nat, b: nat)
    requires IsRun(states, steps) && i < |states|
    requires a < b < |states[i].wire.queued|
    requires states[i].wire.queued[a].Ack? && states[i].wire.queued[b].Ack?
    ensures states[i].wire.queued[a].sub != states[i].wire.queued[b].sub
         || states[i].wire.queued[a].serial != states[i].wire.queued[b].serial
  {
    RunSound(states, steps, i);
    hide Good, Delivered, CursorGood;
    assert OutMark(states[i].wire.queued[a]) != OutMark(states[i].wire.queued[b]);
  }

  /**
   * Conservation: every recorded delivery has one fate; it is outstanding
   * exactly while it is in its pending queue, and only there.
   */
  lemma FatesAccountForPending(states: seq<State>, steps: seq<Step>, i: nat, k: Key)
    requires IsRun(states, steps) && i < |states|
    ensures var s := states[i];
            k in s.ledger.book && s.ledger.book[k].fate == Outstanding
            <==> exists n :: && 0 <= n < |QueueOf(s.ledger.pending, k.sub)|
                            && QueueOf(s.ledger.pending, k.sub)[n].serial == k.serial
  {
    RunSound(states, steps, i);
    var s := states[i];
    var q := QueueOf(s.ledger.pending, k.sub);
    if k in s.ledger.book && s.ledger.book[k].fate == Outstanding {
      assert LineGood(s.ledger, k, s.ledger.book[k], s.session, LedgerBound(s));
    }
    if n :| 0 <= n < |q| && q[n].serial == k.serial {
      assert QueueGood(s.ledger, k.sub, q, s.session);
      assert Outstands(s.ledger, k.sub, q[n]);
    }
  }

  // ---------------------------------------------------------------- cumulative cursors

  /** Within a session a `client` subscription's pending queue is the newest part of its log, cut only at the front. */
  lemma {:induction false} CursorNeverBack(states: seq<State>, steps: seq<Step>, i: nat, j: nat, id: SubId)
    requires IsRun(states, steps) && i <= j < |states| && states[i].session == states[j].session
    requires id in states[i].reg.subs && states[i].reg.subs[id].mode == Cumulative
    ensures SuffixPending(states[j].ledger, id)
    ensures Cursor(states[i].ledger, id) <= Cursor(states[j].ledger, id)
    decreases j
  {
    hide Good, Delivered, NamedOnce, Enabled, Next, Evolves, BookKept, AnswersKept, WireKept, SuffixPending, Cursor;
    if i == j {
      RunSound(states, steps, i);
    } else {
      RunFollows(states, steps, i, j - 1);
      RunFollows(states, steps, j - 1, j);
      CursorNeverBack(states, steps, i, j - 1, id);
      RunSound(states, steps, j - 1);
      StepSound(states[j - 1], steps[j - 1]);
    }
  }

  /**
   * An acknowledgement on a `client` subscription moves its cursor strictly
   * forward, to just past the delivery it names, and sends that one's ack id.
   */
  lemma SettleMovesPast(states: seq<State>, steps: seq<Step>, i: nat, t: Tid, op: Op, pos: nat)
    requires IsRun(states, steps) && i < |steps| && steps[i] == App(Settle(t))
    requires t in states[i].ops && states[i].ops[t] == op && op.Settling?
    requires op.sub in states[i].reg.subs && states[i].reg.subs[op.sub].mode == Cumulative
    requires pos == Find(QueueOf(states[i].ledger.pending, op.sub), op.named)
    requires pos < |QueueOf(states[i].ledger.pending, op.sub)|
    ensures MovesPast(states[i], states[i + 1], t, op.sub, pos)
  {
    RunSound(states, steps, i);
    SettleNext(states[i], t, op);
    assert states[i + 1] == Next(states[i], steps[i]);
    hide IsRun, Next, MovesPast;
    CumulativeOp(states[i], t, op);
    hide Sound;
    PastCursor(states[i], t, op.sub, op.named, op.managed);
    hide DoSettle, IsCumulative, SuffixPending;
  }

  predicate MovesPast(s: State, n: State, t: Tid, sub: SubId, pos: nat)
    requires pos < |QueueOf(s.ledger.pending, sub)|
  {
    var p := QueueOf(s.ledger.pending, sub)[pos];
    && n.ops == s.ops[t := Sending(AckOf(sub, p))]
    && n.ledger.log == s.ledger.log
    && 0 <= Cursor(s.ledger, sub) < Cursor(n.ledger, sub) <= |QueueOf(s.ledger.log, sub)|
    && QueueOf(s.ledger.log, sub)[Cursor(n.ledger, sub) - 1] == p
  }

  lemma SettleNext(s: State, t: Tid, op: Op)
    requires t in s.ops && s.ops[t] == op && op.Settling?
    ensures Enabled(s, App(Settle(t))) && Next(s, App(Settle(t))) == DoSettle(s, t, op.sub, op.named, op.managed)
  {
    hide DoSettle;
  }

  lemma CumulativeOp(s: State, t: Tid, op: Op)
    requires t in s.ops && s.ops[t] == op && op.Settling?
    requires op.sub in s.reg.subs && s.reg.subs[op.sub].mode == Cumulative
    requires Sound(s)
    ensures IsCumulative(op.managed) && SuffixPending(s.ledger, op.sub)
  {
    hide RegGood, PhaseGood, LedgerPart, WireGood, ReceiptsGood, Delivered, NamedOnce, SuffixPending;
    OpOf(s, t);
  }

  lemma PastCursor(s: State, t: Tid, sub: SubId, named: Token, managed: Option<AckMode>)
    requires Find(QueueOf(s.ledger.pending, sub), named) < |QueueOf(s.ledger.pending, sub)|
    requires IsCumulative(managed) && SuffixPending(s.ledger, sub)
    ensures MovesPast(s, DoSettle(s, t, sub, named, managed), t, sub, Find(QueueOf(s.ledger.pending, sub), named))
  {
    var pos := Find(QueueOf(s.ledger.pending, sub), named);
    hide Settled, Find;
    SettleCursor(s.ledger, sub, pos, true, sub);
    SettledLog(s.ledger, sub, pos);
  }

  lemma SettledLog(l: Ledger, sub: SubId, pos: nat)
    requires pos < |QueueOf(l.pending, sub)|
    ensures Settled(l, sub, pos, true).log == l.log
  {
  }

  /**
   * An acknowledgement on a `client-individual` subscription registered when
   * the call began takes the delivery its id names out of the pending queue,
   * and no other, and sends that one's ack id.
   */
  lemma SettleTakesOne(states: seq<State>, steps: seq<Step>, i: nat, t: Tid, op: Op, pos: nat)
    requires IsRun(states, steps) && i < |steps| && steps[i] == App(Settle(t))
    requires t in states[i].ops && states[i].ops[t] == op && op.Settling? && op.managed == Some(Individual)
    requires pos == Find(QueueOf(states[i].ledger.pending, op.sub), op.named)
    requires pos < |QueueOf(states[i].ledger.pending, op.sub)|
    ensures TakesOne(states[i], states[i + 1], t, op.sub, QueueOf(states[i].ledger.pending, op.sub)[pos])
  {
    RunSound(states, steps, i);
    SettleNext(states[i], t, op);
    assert states[i + 1] == Next(states[i], steps[i]);
    SoundParts(states[i]);
    hide IsRun, Next, Sound, LedgerGood, DoSettle, TakesOne, Find;
    TakeOne(states[i], t, op.sub, op.named);
  }

  lemma TakeOne(s: State, t: Tid, sub: SubId, named: Token)
    requires LedgerGood(s.ledger, s.session, LedgerBound(s))
    requires Find(QueueOf(s.ledger.pending, sub), named) < |QueueOf(s.ledger.pending, sub)|
    ensures TakesOne(s, DoSettle(s, t, sub, named, Some(Individual)), t, sub,
                     QueueOf(s.ledger.pending, sub)[Find(QueueOf(s.ledger.pending, sub), named)])
  {
    hide LedgerGood, LedgerBound, Settled, Find, Holds, Ascending;
    IndividualRemovesOne(s.ledger, sub, named, s.session, LedgerBound(s));
  }

  ghost predicate TakesOne(s: State, n: State, t: Tid, sub: SubId, p: Pend) {
    && n.ops == s.ops[t := Sending(AckOf(sub, p))]
    && Ascending(QueueOf(n.ledger.pending, sub))
    && (forall o | Holds(QueueOf(s.ledger.pending, sub), o) :: Holds(QueueOf(n.ledger.pending, sub), o) <==> o != p)
    && (forall id | id != sub :: QueueOf(n.ledger.pending, id) == QueueOf(s.ledger.pending, id))
  }

  /**
   * By the time an UNSUBSCRIBE is written nothing is pending for its
   * subscription, whatever raced with the calls that queued it.
   */
  lemma UnsubscribeForgetsFirst(states: seq<State>, steps: seq<Step>, i: nat, ok: bool)
    requires IsRun(states, steps) && i < |steps| && steps[i] == Io(WriteDone(ok))
    requires Waits(states[i].wire) && Front(states[i].wire).Unsubscribe?
    ensures Front(states[i].wire).id !in states[i + 1].ledger.pending
  {
    RunSound(states, steps, i);
    assert Enabled(states[i], steps[i]) && states[i + 1] == Next(states[i], steps[i]);
    hide IsRun, Good, Delivered, NamedOnce, CursorGood, Disposed;
  }
}
