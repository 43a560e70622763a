/** What became of every recorded delivery, over every run: each is in exactly one place. */
module Conservation {
  import opened Options
  import opened Types
  import opened Registry
  import opened Ledger
  import opened Wire
  import opened Client
  import opened Invariant
  import opened Delivery
  import opened Acks
  import opened Runs
  import opened Acknowledging

  // ---------------------------------------------------------------- how a fate is decided

  /** A frame with the mark is queued, was queued, or is about to be. */
  ghost predicate Carried(s: State, mark: Mark) {
    || (exists n | 0 <= n < |s.wire.queued| :: OutMark(s.wire.queued[n]) == Some(mark))
    || (exists t | t in s.ops :: OpMark(s.ops[t]) == Some(mark))
  }

  /** The call that was about to queue it was dropped. */
  predicate CancelledBy(s: State, e: Step, mark: Mark) {
    e.App? && e.a.Cancel? && e.a.t in s.ops && OpMark(s.ops[e.a.t]) == Some(mark)
  }

  ghost predicate EverCancelled(states: seq<State>, steps: seq<Step>, i: nat, mark: Mark)
    requires i <= |steps| && |states| == |steps| + 1
  {
    exists j | 0 <= j < i :: CancelledBy(states[j], steps[j], mark)
  }

  /** A step either leaves a fate, or forgets or records the delivery, or settles. */
  lemma FateMoves(s: State, e: Step, k: Key)
    requires Enabled(s, e) && k in Next(s, e).ledger.book && !(e.App? && e.a.Settle?)
    ensures var fate := Next(s, e).ledger.book[k].fate;
            fate == Outstanding || fate.Forgotten? || (k in s.ledger.book && fate == s.ledger.book[k].fate)
  {
    match e {
      case App(a) =>
        hide Settled, Forgot, Find, DoRegister, DoUnregister, DoClose, DoReceive;
        if a.UnsubForget? {
          ForgotBook(s.ledger, {s.ops[a.t].id}, Unsubscribing);
        } else if a.DropForget? {
          ForgotBook(s.ledger, {s.ops[a.t].id}, HandleDropped);
        }
      case Io(i) => TaskFate(s, i, k);
      case Net(n) =>
    }
  }

  lemma TaskFate(s: State, e: TaskStep, k: Key)
    requires TaskEnabled(s, e) && k in TaskNext(s, e).ledger.book
    ensures var fate := TaskNext(s, e).ledger.book[k].fate;
            fate == Outstanding || fate.Forgotten? || (k in s.ledger.book && fate == s.ledger.book[k].fate)
  {
    hide Forgot;
    match e {
      case ForgetWritten => ForgotBook(s.ledger, {s.phase.id}, UnsubscribeSent);
      case Sweep => ForgotBook(s.ledger, s.ledger.pending.Keys - s.phase.live, Swept);
      case Unpend => ForgotBook(s.ledger, {s.phase.id}, ReceiverGone);
      case EndSession => ForgotBook(s.ledger, s.ledger.pending.Keys, SessionOver);
      case Record =>
      case _ => PlainLedger(s, e);
    }
  }

  /** A settlement names the one delivery its frame carries, and covers only earlier ones it leaves named after. */
  lemma SettleFates(s: State, t: Tid, op: Op, k: Key)
    requires t in s.ops && s.ops[t] == op && op.Settling? && LedgerPart(s)
    requires var n := DoSettle(s, t, op.sub, op.named, op.managed); k in n.ledger.book
    ensures var n := DoSettle(s, t, op.sub, op.named, op.managed);
            var fate := n.ledger.book[k].fate;
            || (k in s.ledger.book && fate == s.ledger.book[k].fate)
            || (fate == Named && Carried(n, ForDelivery(k)))
            || (fate == Covered && CoveredBelow(n.ledger, k))
  {
    var q := QueueOf(s.ledger.pending, op.sub);
    var pos := Find(q, op.named);
    var n := DoSettle(s, t, op.sub, op.named, op.managed);
    if pos < |q| {
      SettleKeeps(s.ledger, op.sub, pos, IsCumulative(op.managed), s.session, LedgerBound(s));
      SettledLine(s.ledger, op.sub, pos, IsCumulative(op.managed), k);
      var named := Key(op.sub, q[pos].serial);
      hide Settled, Find, LedgerPart, LedgerGood;
      if k == named {
        assert OpMark(n.ops[t]) == Some(ForDelivery(k));
      } else if n.ledger.book[k].fate != s.ledger.book[k].fate {
        OutstandingNow(s, k);
        assert n.ledger.book[named] == Line(q[pos], Named);
        assert n.ledger.book[k].pend == s.ledger.book[k].pend;
        assert CoveredBelow(n.ledger, k);
      }
    }
  }

  /** A later delivery of the same subscription and session was named. */
  ghost predicate CoveredBelow(l: Ledger, k: Key)
    requires k in l.book
  {
    exists later: Key | later in l.book ::
      && later.sub == k.sub && later.serial > k.serial
      && l.book[later].fate == Named && l.book[later].pend.session == l.book[k].pend.session
  }

  lemma SettledLine(l: Ledger, sub: SubId, pos: nat, cumulative: bool, k: Key)
    requires pos < |QueueOf(l.pending, sub)| && k in Settled(l, sub, pos, cumulative).book
    ensures var n := Settled(l, sub, pos, cumulative);
            && k in l.book && n.book[k].pend == l.book[k].pend
            && (k != Key(sub, QueueOf(l.pending, sub)[pos].serial) && n.book[k].fate != l.book[k].fate ==>
                  && n.book[k].fate == Covered && l.book[k].fate == Outstanding
                  && k.sub == sub && k.serial < QueueOf(l.pending, sub)[pos].serial)
  {
  }

  /** What is outstanding is of the current session. */
  lemma OutstandingNow(s: State, k: Key)
    requires LedgerPart(s) && k in s.ledger.book
    ensures s.ledger.book[k].fate == Outstanding ==> s.ledger.book[k].pend.session == s.session
  {
    if s.ledger.book[k].fate == Outstanding {
      var q := QueueOf(s.ledger.pending, k.sub);
      assert LineGood(s.ledger, k, s.ledger.book[k], s.session, LedgerBound(s));
      assert QueueGood(s.ledger, k.sub, q, s.session);
    }
  }

  // ---------------------------------------------------------------- one frame for each named delivery

  /** A carried delivery is in the book, named. */
  lemma CarriedIsNamed(s: State, k: Key)
    requires OpsPart(s) && Carried(s, ForDelivery(k))
    ensures k in s.ledger.book && s.ledger.book[k].fate == Named
  {
    if n :| 0 <= n < |s.wire.queued| && OutMark(s.wire.queued[n]) == Some(ForDelivery(k)) {
      assert OutGood(s, s.wire.queued[n]);
    } else {
      var t :| t in s.ops && OpMark(s.ops[t]) == Some(ForDelivery(k));
      assert OpGood(s, s.ops[t]);
    }
  }

  /** A frame about to be queued is queued, or its call is dropped, or it still is about to be. */
  lemma CarryMoves(s: State, e: Step, k: Key)
    requires Enabled(s, e) && Sound(s) && Carried(s, ForDelivery(k))
    ensures Carried(Next(s, e), ForDelivery(k)) || CancelledBy(s, e, ForDelivery(k))
  {
    var n := Next(s, e);
    var mark := ForDelivery(k);
    StepQueue(s, e);
    hide Sound, Next, Enabled, OutMark;
    if i :| 0 <= i < |s.wire.queued| && OutMark(s.wire.queued[i]) == Some(mark) {
      assert n.wire.queued[i] == s.wire.queued[i];
    } else {
      var t :| t in s.ops && OpMark(s.ops[t]) == Some(mark);
      if t in n.ops && n.ops[t] == s.ops[t] {
      } else {
        OpEnds(s, e, t, mark);
      }
    }
  }

  lemma StepQueue(s: State, e: Step)
    requires Enabled(s, e) && Sound(s)
    ensures s.wire.queued <= Next(s, e).wire.queued
  {
    StepWire(s, e);
    hide Next, Sound, Enabled;
  }

  /** An operation with a mark ends by queueing its frame or by being dropped. */
  lemma OpEnds(s: State, e: Step, t: Tid, mark: Mark)
    requires Enabled(s, e) && Sound(s) && t in s.ops && OpMark(s.ops[t]) == Some(mark) && mark.ForDelivery?
    requires t !in Next(s, e).ops || Next(s, e).ops[t] != s.ops[t]
    ensures Carried(Next(s, e), mark) || CancelledBy(s, e, mark)
  {
    hide Sound, AppNext, TaskNext, TaskEnabled, OutMark, Carried;
    match e {
      case App(a) =>
        AppFrame(s, a);
        AppLeaves(s, a);
        var n := AppNext(s, a);
        OthersWait(s.ops, n.ops, Actor(a), t);
        if a.Enqueue? {
          EnqueueCarries(s, t, mark);
        }
      case Io(i) =>
        SoundParts(s);
        TaskFrame(s, i);
      case Net(n) =>
    }
  }

  lemma OthersWait(ops: map<Tid, Op>, n: map<Tid, Op>, actor: Tid, t: Tid)
    requires n - {actor} == ops - {actor} && t in ops
    ensures t == actor || (t in n && n[t] == ops[t])
  {
    assert t != actor ==> t in ops - {actor};
  }

  lemma EnqueueCarries(s: State, t: Tid, mark: Mark)
    requires AppEnabled(s, Enqueue(t)) && OpMark(s.ops[t]) == Some(mark)
    ensures Carried(AppNext(s, Enqueue(t)), mark)
  {
    var n := AppNext(s, Enqueue(t));
    assert OutMark(n.wire.queued[|s.wire.queued|]) == Some(mark);
  }

  /** Once its call is dropped no frame with the mark is left. */
  lemma CancelUnmarks(s: State, e: Step, mark: Mark)
    requires Enabled(s, e) && NamedOnce(s.ops, s.wire.queued) && CancelledBy(s, e, mark)
    ensures !Carried(Next(s, e), mark)
  {
    hide DoClose, HandleClosed, OutMark, OpMark;
  }

  /** No step brings back the frame of a delivery that was named before. */
  lemma MarkMoves(s: State, e: Step, k: Key)
    requires Enabled(s, e) && Sound(s) && Carried(Next(s, e), ForDelivery(k)) && !Carried(s, ForDelivery(k))
    ensures k in s.ledger.book && s.ledger.book[k].fate == Outstanding
  {
    SoundParts(s);
    match e {
      case App(a) =>
        AppFrame(s, a);
        hide Sound;
        if a.Settle? {
          SettleMarks(s, a.t, s.ops[a.t], k);
        } else {
          MarksOnlyMove(s, a, ForDelivery(k));
        }
      case Io(i) =>
        TaskFrame(s, i);
        hide Sound, TaskNext, OutMark, OpMark;
      case Net(n) =>
    }
  }

  lemma SettleMarks(s: State, t: Tid, op: Op, k: Key)
    requires t in s.ops && s.ops[t] == op && op.Settling? && LedgerPart(s)
    requires Carried(DoSettle(s, t, op.sub, op.named, op.managed), ForDelivery(k)) && !Carried(s, ForDelivery(k))
    ensures k in s.ledger.book && s.ledger.book[k].fate == Outstanding
  {
    var q := QueueOf(s.ledger.pending, op.sub);
    var pos := Find(q, op.named);
    if pos < |q| {
      SettleKeeps(s.ledger, op.sub, pos, IsCumulative(op.managed), s.session, LedgerBound(s));
      hide Settled, Find, LedgerPart, LedgerGood;
      assert k == Key(op.sub, q[pos].serial);
    }
  }

  lemma MarksOnlyMove(s: State, a: AppStep, mark: Mark)
    requires AppEnabled(s, a) && !a.Settle? && mark.ForDelivery? && Carried(AppNext(s, a), mark)
    ensures Carried(s, mark)
  {
    var n := AppNext(s, a);
    hide Forgot, DoRegister, DoUnregister, DoClose, DoReceive, Registering, HandleClosed, Deregistered;
    if i :| 0 <= i < |n.wire.queued| && OutMark(n.wire.queued[i]) == Some(mark) {
      if i < |s.wire.queued| {
        AppFrame(s, a);
        assert n.wire.queued[i] == s.wire.queued[i];
      } else {
        assert a.Enqueue?;
        assert OpMark(s.ops[a.t]) == Some(mark);
      }
    } else {
      var t :| t in n.ops && OpMark(n.ops[t]) == Some(mark);
      assert t in s.ops && s.ops[t] == n.ops[t];
    }
  }

  /** A call that was dropped with the frame in hand had named the delivery. */
  lemma CancelledWasNamed(states: seq<State>, steps: seq<Step>, i: nat, k: Key)
    requires IsRun(states, steps) && i < |states| == |steps| + 1 && EverCancelled(states, steps, i, ForDelivery(k))
    ensures k in states[i].ledger.book && states[i].ledger.book[k].fate == Named
  {
    hide IsRun, Sound, OpMark, OutMark;
    var j :| 0 <= j < i && CancelledBy(states[j], steps[j], ForDelivery(k));
    RunSound(states, steps, j);
    SoundParts(states[j]);
    assert Carried(states[j], ForDelivery(k));
    CarriedIsNamed(states[j], k);
    RunFollows(states, steps, j, i);
    FateKept(states[j], states[i], k);
  }

  lemma FateKept(s: State, n: State, k: Key)
    requires Follows(s, n) && k in s.ledger.book && s.ledger.book[k].fate != Outstanding
    ensures k in n.ledger.book && n.ledger.book[k].fate == s.ledger.book[k].fate
  {
  }

  /**
   * A recorded delivery is named exactly when a frame naming it was or is about
   * to be queued, or the call that named it was dropped before queueing it; and
   * never both.
   */
  lemma {:induction false} NamedByOneFrame(states: seq<State>, steps: seq<Step>, i: nat, k: Key)
    requires IsRun(states, steps) && i < |states| == |steps| + 1 && k in states[i].ledger.book
    ensures states[i].ledger.book[k].fate == Named
            <==> Carried(states[i], ForDelivery(k)) || EverCancelled(states, steps, i, ForDelivery(k))
    ensures !(Carried(states[i], ForDelivery(k)) && EverCancelled(states, steps, i, ForDelivery(k)))
  {
    hide IsRun, Sound, Enabled, Next, Carried, CancelledBy, Follows, EverCancelled;
    NothingAtFirst(states, steps);
    if i > 0 {
      var s, e, n, mark := states[i - 1], steps[i - 1], states[i], ForDelivery(k);
      RunStep(states, steps, i - 1);
      RunSound(states, steps, i - 1);
      RunSound(states, steps, i);
      CancelledMore(states, steps, i, mark);
      NamedStep(s, e, k);
      if EverCancelled(states, steps, i - 1, mark) {
        CancelledWasNamed(states, steps, i - 1, k);
      }
      if k in s.ledger.book {
        NamedByOneFrame(states, steps, i - 1, k);
      }
    }
  }

  lemma NothingAtFirst(states: seq<State>, steps: seq<Step>)
    requires IsRun(states, steps)
    ensures |states| > 0 && states[0].ledger.book == map[]
  {
    hide Enabled, Next;
  }

  lemma CancelledMore(states: seq<State>, steps: seq<Step>, i: nat, mark: Mark)
    requires 0 < i <= |steps| && |states| == |steps| + 1
    ensures EverCancelled(states, steps, i, mark)
            <==> EverCancelled(states, steps, i - 1, mark) || CancelledBy(states[i - 1], steps[i - 1], mark)
  {
    hide CancelledBy;
  }

  /** One step of the proof above. */
  lemma NamedStep(s: State, e: Step, k: Key)
    requires Enabled(s, e) && Sound(s) && Sound(Next(s, e)) && k in Next(s, e).ledger.book
    ensures var n, mark := Next(s, e), ForDelivery(k);
            && (Carried(n, mark) ==> n.ledger.book[k].fate == Named)
            && (CancelledBy(s, e, mark) ==> Carried(s, mark) && !Carried(n, mark))
            && (Carried(s, mark) ==> k in s.ledger.book && s.ledger.book[k].fate == Named)
            && (Carried(s, mark) ==> Carried(n, mark) || CancelledBy(s, e, mark))
            && (k in s.ledger.book && s.ledger.book[k].fate == Named ==>
                  n.ledger.book[k].fate == Named && (Carried(n, mark) ==> Carried(s, mark)))
            && (n.ledger.book[k].fate == Named && !(k in s.ledger.book && s.ledger.book[k].fate == Named) ==>
                  Carried(n, mark) && !CancelledBy(s, e, mark))
  {
    var n, mark := Next(s, e), ForDelivery(k);
    SoundParts(s);
    SoundParts(n);
    StepFollows(s, e);
    if Carried(n, mark) {
      CarriedIsNamed(n, k);
      if !Carried(s, mark) {
        MarkMoves(s, e, k);
      }
    }
    if CancelledBy(s, e, mark) {
      CancelUnmarks(s, e, mark);
      assert Carried(s, mark) by { CancelledCarried(s, e, mark); }
    }
    if Carried(s, mark) {
      CarriedIsNamed(s, k);
      CarryMoves(s, e, k);
    }
    NamedHow(s, e, k);
    hide Sound, Enabled, Next, Carried, CancelledBy, OpsPart, PhaseGood, LedgerPart, NamedOnce, RegEvolves, WireKept;
  }

  lemma CancelledCarried(s: State, e: Step, mark: Mark)
    requires CancelledBy(s, e, mark)
    ensures Carried(s, mark)
  {
    hide OpMark, OutMark;
  }

  /** Only a settlement names, and its frame is then about to be queued. */
  lemma NamedHow(s: State, e: Step, k: Key)
    requires Enabled(s, e) && Sound(s) && k in Next(s, e).ledger.book
    ensures var n := Next(s, e);
            && (n.ledger.book[k].fate == Named ==>
                  (k in s.ledger.book && s.ledger.book[k].fate == Named) || Carried(n, ForDelivery(k)))
            && (n.ledger.book[k].fate == Covered ==>
                  (k in s.ledger.book && s.ledger.book[k].fate == Covered) || CoveredBelow(n.ledger, k))
  {
    SoundParts(s);
    hide Sound;
    if e.App? && e.a.Settle? {
      SettleFates(s, e.a.t, s.ops[e.a.t], k);
      hide Carried, CoveredBelow, OpsPart, PhaseGood, LedgerPart, NamedOnce, DoSettle;
    } else {
      FateMoves(s, e, k);
      hide AppNext, TaskNext, AppEnabled, TaskEnabled, Carried, CoveredBelow, OpsPart, PhaseGood, LedgerPart, NamedOnce;
    }
  }

  /** A covered delivery is followed by one of the same subscription and session that was named. */
  lemma {:induction false} CoveredByNamed(states: seq<State>, steps: seq<Step>, i: nat, k: Key)
    requires IsRun(states, steps) && i < |states| == |steps| + 1 && k in states[i].ledger.book
    requires states[i].ledger.book[k].fate == Covered
    ensures CoveredBelow(states[i].ledger, k)
  {
    hide IsRun, Sound, Enabled, Next, CoveredBelow, Carried;
    NothingAtFirst(states, steps);
    if i > 0 {
      RunStep(states, steps, i - 1);
      RunSound(states, steps, i - 1);
      NamedHow(states[i - 1], steps[i - 1], k);
      if k in states[i - 1].ledger.book && states[i - 1].ledger.book[k].fate == Covered {
        CoveredByNamed(states, steps, i - 1, k);
        StepFollows(states[i - 1], steps[i - 1]);
        CoveredStays(states[i - 1], states[i], k);
      }
    }
  }

  lemma CoveredStays(s: State, n: State, k: Key)
    requires Follows(s, n) && k in s.ledger.book && CoveredBelow(s.ledger, k)
    ensures k in n.ledger.book && CoveredBelow(n.ledger, k)
  {
  }

  /**
   * Conservation: at all times a recorded delivery is in exactly one of these
   * places. It is in its pending queue; or one frame names it, queued or about
   * to be, or was dropped with its call; or a later delivery of the same
   * subscription and session was named; or it was forgotten for a reason that
   * shows elsewhere.
   */
  lemma EveryDeliveryAccounted(states: seq<State>, steps: seq<Step>, i: nat, k: Key)
    requires IsRun(states, steps) && i < |states| == |steps| + 1 && k in states[i].ledger.book
    ensures var s, mark := states[i], ForDelivery(k);
            var pending := exists n :: 0 <= n < |QueueOf(s.ledger.pending, k.sub)|
                                       && QueueOf(s.ledger.pending, k.sub)[n].serial == k.serial;
            match s.ledger.book[k].fate
            case Outstanding => pending && !Carried(s, mark) && !EverCancelled(states, steps, i, mark)
            case Named => !pending && (Carried(s, mark) <==> !EverCancelled(states, steps, i, mark))
            case Covered => !pending && !Carried(s, mark) && CoveredBelow(s.ledger, k)
            case Forgotten(why) =>
              && !pending && !Carried(s, mark) && FateBacked(s, k.sub, s.ledger.book[k].fate)
              && (why == SessionOver ==> s.ledger.book[k].pend.session < s.session)
  {
    FatesAccountForPending(states, steps, i, k);
    NamedByOneFrame(states, steps, i, k);
    LineOf(states, steps, i, k);
    if states[i].ledger.book[k].fate == Covered {
      CoveredByNamed(states, steps, i, k);
    }
    hide IsRun, Carried, EverCancelled, CoveredBelow, FateBacked;
  }

  lemma LineOf(states: seq<State>, steps: seq<Step>, i: nat, k: Key)
    requires IsRun(states, steps) && i < |states| && k in states[i].ledger.book
    ensures FateBacked(states[i], k.sub, states[i].ledger.book[k].fate)
    ensures states[i].ledger.book[k].fate == Forgotten(SessionOver) ==>
              states[i].ledger.book[k].pend.session < states[i].session
  {
    hide IsRun, Good, RegGood, PhaseGood, OpsPart, HistoryPart, AllRecorded, HandlerGood, NamedOnce, CursorGood;
    hide WritingClean, CurrentPart, QueueGood, Holds;
    RunSound(states, steps, i);
    SoundParts(states[i]);
    assert LineBacked(states[i], k, states[i].ledger.book[k]);
    assert LineGood(states[i].ledger, k, states[i].ledger.book[k], states[i].session, LedgerBound(states[i]));
  }
}
