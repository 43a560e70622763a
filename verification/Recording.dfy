/** Record before deliver, over every run: which delivered messages are in the book, and what became of them. */
module Recording {
  import opened Options
  import opened Types
  import opened Registry
  import opened Ledger
  import opened Wire
  import opened Client
  import opened Invariant
  import opened Delivery
  import opened Acks
  import opened Runs
  import opened Traces

  /** The message in the book under `id`, with the ids its headers give. */
  predicate Booked(s: State, id: SubId, m: Message)
    requires m.msgId.Some?
  {
    Key(id, m.serial) in s.ledger.book && s.ledger.book[Key(id, m.serial)].pend == PendOf(m)
  }

  /** Registered when the client last looked up whom to record `m` for. */
  ghost predicate InTime(states: seq<State>, steps: seq<Step>, i: nat, id: SubId, m: Message)
    requires i <= |steps| && |states| == |steps| + 1
  {
    exists a, l | 0 <= a <= l < i :: LookedUpAt(states, steps, a, l, m) && Registered(states[l].reg, id)
  }

  lemma StampedBooked(states: seq<State>, steps: seq<Step>, i: nat, id: SubId, n: nat)
    requires IsRun(states, steps) && i < |states|
    requires id in states[i].reg.subs && states[i].reg.subs[id].mode != Auto
    requires n < |states[i].reg.subs[id].accepted| && states[i].reg.subs[id].accepted[n].msgId.Some?
    ensures RecordKept(states[i].ledger, id, states[i].reg.subs[id].accepted[n])
  {
    RunSound(states, steps, i);
    hide IsRun, Good, HistoryPart, BookBacked, HandlerGood, NamedOnce;
    hide CursorGood, WritingClean, CurrentPart, RecordKept;
  }

  /** Between a look-up and a pass that finds it registered, a subscription was registered or came after. */
  lemma HorizonIsRegistration(states: seq<State>, steps: seq<Step>, l: nat, d: nat, id: SubId)
    requires IsRun(states, steps) && l <= d < |states| && Registered(states[d].reg, id)
    ensures id < states[l].reg.nextId <==> Registered(states[l].reg, id)
  {
    RunFollows(states, steps, l, d);
    RunSound(states, steps, l);
    hide IsRun, BookKept, AnswersKept, WireKept, PhaseGood, LedgerPart, WireGood, ReceiptsGood, OpsPart;
    hide Delivered, NamedOnce, CursorGood, WritingClean, CurrentPart, WakeGood, SubGood;
  }

  /**
   * A message a client-mode subscription accepted is in the book, under the
   * ids its headers give, exactly when the subscription was registered at the
   * last step at which the client looked up whom to record it for.
   */
  lemma RecordedIffRegistered(states: seq<State>, steps: seq<Step>, i: nat, id: SubId, n: nat)
    requires IsRun(states, steps) && i < |states| == |steps| + 1
    requires id in states[i].reg.subs && states[i].reg.subs[id].mode != Auto
    requires n < |states[i].reg.subs[id].accepted| && states[i].reg.subs[id].accepted[n].msgId.Some?
    ensures exists a, l, d | 0 <= a <= l < d < i ::
              && CameBy(states, steps, a, l, d, id, states[i].reg.subs[id].accepted[n])
              && (Booked(states[i], id, states[i].reg.subs[id].accepted[n]) <==> Registered(states[l].reg, id))
  {
    hide IsRun;
    StampedBooked(states, steps, i, id, n);
    AcceptedTraced(states, steps, i, id, n);
    var m := states[i].reg.subs[id].accepted[n];
    var a, l, d :| 0 <= a <= l < d < i && CameBy(states, steps, a, l, d, id, m);
    HorizonIsRegistration(states, steps, l, d, id);
    assert Booked(states[i], id, m) <==> Registered(states[l].reg, id);
  }

  // ---------------------------------------------------------------- what became of it

  /** The entry is in its pending queue, and an acknowledgement by either of its ids finds an entry that has that id. */
  predicate Findable(q: seq<Pend>, p: Pend) {
    && (exists i | 0 <= i < |q| :: q[i] == p)
    && Find(q, p.ackId) < |q| && q[Find(q, p.ackId)].ackId == p.ackId
    && Find(q, p.msgId) < |q| && (q[Find(q, p.msgId)].ackId == p.msgId || q[Find(q, p.msgId)].msgId == p.msgId)
    && ((forall i | 0 <= i < |q| && q[i].ackId == p.ackId :: q[i] == p) ==> q[Find(q, p.ackId)] == p)
  }

  /**
   * A recorded message is pending and can be acknowledged, was named or
   * covered, or was forgotten for a reason that shows.
   */
  predicate Accounted(s: State, id: SubId, m: Message)
    requires m.msgId.Some?
  {
    && Booked(s, id, m)
    && match s.ledger.book[Key(id, m.serial)].fate
       case Outstanding => Findable(QueueOf(s.ledger.pending, id), PendOf(m))
       case Named => true
       case Covered => true
       case Forgotten(SessionOver) => m.session < s.session
       case Forgotten(Unsubscribing) => Gone(s.reg, id)
       case Forgotten(ReceiverGone) => Gone(s.reg, id)
       case Forgotten(Swept) => Gone(s.reg, id)
       case Forgotten(HandleDropped) => id in s.released
       case Forgotten(UnsubscribeSent) => id in s.released
  }

  lemma HeldFindable(q: seq<Pend>, p: Pend)
    requires Holds(q, p)
    ensures Findable(q, p)
  {
  }

  lemma BookedAccounted(states: seq<State>, steps: seq<Step>, i: nat, id: SubId, m: Message)
    requires IsRun(states, steps) && i < |states| && m.msgId.Some? && Booked(states[i], id, m)
    ensures Accounted(states[i], id, m)
  {
    RunSound(states, steps, i);
    hide IsRun, NamedOnce, CursorGood, WireGood, ReceiptsGood, OpsPart, HistoryPart, AllRecorded, HandlerGood, RegGood;
    hide PhaseGood, WritingClean, CurrentPart, Findable, QueueGood, Holds;
    var s := states[i];
    var k := Key(id, m.serial);
    assert LineBacked(s, k, s.ledger.book[k]);
    assert LineGood(s.ledger, k, s.ledger.book[k], s.session, LedgerBound(s));
    if s.ledger.book[k].fate == Outstanding {
      HeldFindable(QueueOf(s.ledger.pending, id), PendOf(m));
    }
  }

  /**
   * End to end: once a MESSAGE with a `message-id` arrives for a subscription
   * the broker was sent a SUBSCRIBE for, and a client-mode subscription accepts
   * it, it is that subscription, and from then on the message is accounted for.
   */
  lemma SeenIsAccounted(states: seq<State>, steps: seq<Step>, j: nat, i: nat, id: SubId, who: SubId, n: nat)
    requires IsRun(states, steps) && j < i < |states| == |steps| + 1
    requires steps[j].Io? && steps[j].i.Arrive? && steps[j].i.sub == Some(id) && steps[j].i.msgId.Some?
    requires id in states[j].wire.seen
    requires who in states[i].reg.subs && states[i].reg.subs[who].mode != Auto
    requires n < |states[i].reg.subs[who].accepted|
    requires states[i].reg.subs[who].accepted[n].serial == states[j].nextSerial
    ensures who == id
    ensures states[i].reg.subs[who].accepted[n].msgId.Some?
    ensures Accounted(states[i], id, states[i].reg.subs[who].accepted[n])
  {
    hide IsRun, Accounted, Booked;
    var m := states[i].reg.subs[who].accepted[n];
    AcceptedTraced(states, steps, i, who, n);
    var a, l, d :| 0 <= a <= l < d < i && CameBy(states, steps, a, l, d, who, m);
    OneArrival(states, steps, a, j);
    SeenBelow(states, steps, j, id);
    StampedBooked(states, steps, i, who, n);
    assert Booked(states[i], id, m) by { StampBooks(states[i], id, m); }
    BookedAccounted(states, steps, i, id, m);
  }

  lemma StampBooks(s: State, id: SubId, m: Message)
    requires m.msgId.Some? && RecordKept(s.ledger, id, m) && id < m.horizon
    ensures Booked(s, id, m)
  {
  }

  lemma SeenBelow(states: seq<State>, steps: seq<Step>, j: nat, id: SubId)
    requires IsRun(states, steps) && j < |states| && id in states[j].wire.seen
    ensures id < states[j].reg.nextId
  {
    RunSound(states, steps, j);
    hide IsRun, PhaseGood, LedgerPart, WireGood, ReceiptsGood, Delivered;
    hide NamedOnce, CursorGood, WritingClean, CurrentPart;
    IdBelow(states[j].reg, id);
  }

  // ---------------------------------------------------------------- never skipped

  /** Its handle was not dropped, nor an UNSUBSCRIBE taken up for it. */
  predicate LetBe(states: seq<State>, steps: seq<Step>, i: nat, id: SubId)
    requires i <= |steps| && |states| == |steps| + 1
  {
    forall j | 0 <= j < i ::
      && (steps[j].App? && steps[j].a.DropHandle? ==> steps[j].a.id != id)
      && (steps[j] == Io(ForgetWritten) ==> states[j].phase != Forgetting(id))
  }

  lemma ReleaseMoves(s: State, e: Step, id: SubId)
    requires Enabled(s, e) && id in Next(s, e).released && id !in s.released
    ensures (e.App? && e.a.DropHandle? && e.a.id == id) || (e == Io(ForgetWritten) && s.phase == Forgetting(id))
  {
    hide Settled, Forgot, Find, DoRegister, DoUnregister, DoClose, DoReceive, Recorded, SessionEnded;
    hide DoClean, DoDeliver, DoWake, DoPrune, DoFail, DoBrokerError, DoExit;
    hide AckTargets, Lists, Woken, Overrun, Disposed;
  }

  lemma {:induction false} LetBeKept(states: seq<State>, steps: seq<Step>, i: nat, id: SubId)
    requires IsRun(states, steps) && i < |states| == |steps| + 1 && LetBe(states, steps, i, id)
    ensures id !in states[i].released
  {
    hide IsRun, Next, Enabled;
    RunSize(states, steps);
    if i > 0 {
      LetBeKept(states, steps, i - 1, id);
      RunStep(states, steps, i - 1);
      if id in states[i].released {
        ReleaseMoves(states[i - 1], steps[i - 1], id);
      }
    }
  }

  /**
   * While a client-mode subscription is registered and let be, a message of the
   * current session it accepted, and was registered in time for, is pending or
   * was named or covered; while pending, an acknowledgement of it is not
   * skipped, and takes it when its ack id is its own.
   */
  lemma AckNeverSkipped(states: seq<State>, steps: seq<Step>, i: nat, id: SubId, n: nat)
    requires IsRun(states, steps) && i < |states| == |steps| + 1
    requires Acking(states[i].reg, id) && LetBe(states, steps, i, id)
    requires n < |states[i].reg.subs[id].accepted|
    requires states[i].reg.subs[id].accepted[n].msgId.Some?
    requires states[i].reg.subs[id].accepted[n].session == states[i].session
    requires InTime(states, steps, i, id, states[i].reg.subs[id].accepted[n])
    ensures var m := states[i].reg.subs[id].accepted[n];
            && Booked(states[i], id, m)
            && match states[i].ledger.book[Key(id, m.serial)].fate
               case Outstanding => Findable(QueueOf(states[i].ledger.pending, id), PendOf(m))
               case Named => true
               case Covered => true
               case Forgotten(_) => false
  {
    hide IsRun, Findable;
    var m := states[i].reg.subs[id].accepted[n];
    StampedBooked(states, steps, i, id, n);
    InTimeStamp(states, steps, i, id, m);
    StampBooks(states[i], id, m);
    BookedAccounted(states, steps, i, id, m);
    LetBeKept(states, steps, i, id);
    hide LetBe, InTime;
  }

  lemma InTimeStamp(states: seq<State>, steps: seq<Step>, i: nat, id: SubId, m: Message)
    requires IsRun(states, steps) && i < |states| == |steps| + 1 && InTime(states, steps, i, id, m)
    ensures id < m.horizon
  {
    hide IsRun, ArrivedAt;
    var a, l :| 0 <= a <= l < i && LookedUpAt(states, steps, a, l, m) && Registered(states[l].reg, id);
    RunSound(states, steps, l);
    hide PhaseGood, LedgerPart, WireGood, ReceiptsGood, OpsPart, Delivered;
    hide NamedOnce, CursorGood, WritingClean, CurrentPart;
    IdBelow(states[l].reg, id);
  }
}
