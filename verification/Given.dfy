/**
 * ACK and NACK frames sent with the id as the caller gave it. They carry no
 * session and name no recorded delivery, so they are where the promises about
 * acknowledgements end: this says exactly when one is sent.
 */
module Given {
  import opened Options
  import opened Types
  import opened Registry
  import opened Ledger
  import opened Wire
  import opened Client
  import opened Invariant
  import opened Delivery
  import opened Acks
  import opened Runs
  import opened Acknowledging

  /** An ACK or NACK frame. */
  predicate IsAckFrame(out: Out) {
    out.Ack? || out.AsGiven?
  }

  /** An ACK or NACK frame for this subscription. */
  predicate AckFrameFor(out: Out, sub: SubId) {
    (out.Ack? && out.sub == sub) || (out.AsGiven? && out.sub == sub)
  }

  /**
   * Task `t` begins a call at step `b` and settles it at step `c`: the call
   * finds nothing outstanding, and the mode it had read is no client mode.
   */
  predicate GivenBy(states: seq<State>, steps: seq<Step>, b: nat, c: nat, t: Tid, out: Out)
    requires b < c < |steps| && |states| == |steps| + 1 && out.AsGiven?
  {
    && steps[b] == App(BeginAck(t, out.sub, out.given)) && !Acking(states[b].reg, out.sub)
    && HeldSince(states, b, c, t, Settling(out.sub, out.given, ModeOf(states[b].reg, out.sub)))
    && steps[c] == App(Settle(t)) && NotFound(states[c], out.sub, out.given)
  }

  predicate NotFound(s: State, sub: SubId, named: Token) {
    Find(QueueOf(s.ledger.pending, sub), named) == |QueueOf(s.ledger.pending, sub)|
  }

  predicate AboutToGive(s: State, t: Tid, sub: SubId, named: Token) {
    t in s.ops && s.ops[t] == Sending(AsGiven(sub, named))
  }

  lemma SettleGives(s: State, t: Tid, op: Op)
    requires t in s.ops && s.ops[t] == op && op.Settling?
    ensures var n := DoSettle(s, t, op.sub, op.named, op.managed);
            AboutToGive(n, t, op.sub, op.named)
            <==> NotFound(s, op.sub, op.named) && op.managed != Some(Cumulative) && op.managed != Some(Individual)
  {
    hide Settled, Find;
  }

  /**
   * A call sends its frame with the id as given if and only if nothing its id
   * names is outstanding when it settles, and the subscription was not
   * registered in a client mode when that call began.
   */
  lemma SentAsGivenExactly(states: seq<State>, steps: seq<Step>, c: nat, t: Tid, op: Op)
    requires IsRun(states, steps) && c < |steps| && |states| == |steps| + 1 && steps[c] == App(Settle(t))
    requires t in states[c].ops && states[c].ops[t] == op && op.Settling?
    ensures exists b | 0 <= b < c ::
              && steps[b] == App(BeginAck(t, op.sub, op.named)) && ModeOf(states[b].reg, op.sub) == op.managed
              && HeldSince(states, b, c, t, op)
              && (AboutToGive(states[c + 1], t, op.sub, op.named)
                  <==> NotFound(states[c], op.sub, op.named) && !Acking(states[b].reg, op.sub))
  {
    hide IsRun, Next, Enabled, NotFound, AboutToGive, HeldSince;
    ModeWasRead(states, steps, c, t, op);
    RunStep(states, steps, c);
    SettleNext(states[c], t, op);
    SettleGives(states[c], t, op);
    hide DoSettle;
    var b :| 0 <= b < c
             && steps[b] == App(BeginAck(t, op.sub, op.named)) && ModeOf(states[b].reg, op.sub) == op.managed
             && HeldSince(states, b, c, t, op);
    assert Acking(states[b].reg, op.sub) <==> op.managed == Some(Cumulative) || op.managed == Some(Individual);
  }

  /** There is only one such beginning: the last step at which the task began a call. */
  lemma OneBeginning(states: seq<State>, steps: seq<Step>, a: nat, b: nat, c: nat, t: Tid, op: Op, begin: AppStep)
    requires IsRun(states, steps) && a < c < |steps| && b < c && |states| == |steps| + 1
    requires begin.BeginAck? && begin.t == t && steps[a] == steps[b] == App(begin)
    requires HeldSince(states, a, c, t, op) && HeldSince(states, b, c, t, op)
    ensures a == b
  {
    hide IsRun, Next;
    RunStep(states, steps, a);
    RunStep(states, steps, b);
  }

  // ---------------------------------------------------------------- where such a frame came from

  /** The frame is in the hands of task `t`, put there by a call that began at `b` and settled at `c`. */
  ghost predicate InHandsOf(states: seq<State>, steps: seq<Step>, i: nat, t: Tid, out: Out)
    requires i <= |steps| && |states| == |steps| + 1 && out.AsGiven?
  {
    exists b, c | 0 <= b < c < i :: GivenBy(states, steps, b, c, t, out) && HeldSince(states, c, i, t, Sending(out))
  }

  /** The item at `n` of the log was queued by such a call. */
  ghost predicate QueuedByCall(states: seq<State>, steps: seq<Step>, i: nat, n: nat, out: Out)
    requires i <= |steps| && |states| == |steps| + 1 && out.AsGiven?
  {
    exists e: nat, t | e < i ::
      && steps[e] == App(Enqueue(t)) && |states[e].wire.queued| == n
      && InHandsOf(states, steps, e, t, out)
  }

  /** A frame gets into a task's hands only by a settlement of its own that finds nothing. */
  lemma GivenMoves(s: State, e: Step, t: Tid, out: Out)
    requires Enabled(s, e) && Good(s) && out.AsGiven? && t in Next(s, e).ops && Next(s, e).ops[t] == Sending(out)
    requires t !in s.ops || s.ops[t] != Sending(out)
    ensures e == App(Settle(t)) && AboutToGive(Next(s, e), t, out.sub, out.given)
    ensures t in s.ops && s.ops[t].Settling? && s.ops[t].sub == out.sub && s.ops[t].named == out.given
  {
    match e {
      case App(a) =>
        hide Good;
        if a.Settle? && a.t == t {
          SettleGiven(s, t, s.ops[t], out);
        } else {
          GivenOnlyMoves(s, a, t, out);
        }
      case Io(i) =>
        GoodParts(s);
        TaskFrame(s, i);
        hide Good, TaskNext;
      case Net(n) =>
    }
  }

  lemma SettleGiven(s: State, t: Tid, op: Op, out: Out)
    requires t in s.ops && s.ops[t] == op && op.Settling? && out.AsGiven?
    requires var n := DoSettle(s, t, op.sub, op.named, op.managed); t in n.ops && n.ops[t] == Sending(out)
    ensures AboutToGive(DoSettle(s, t, op.sub, op.named, op.managed), t, out.sub, out.given)
    ensures op.sub == out.sub && op.named == out.given
  {
    hide Settled, Find;
  }

  lemma GivenOnlyMoves(s: State, a: AppStep, t: Tid, out: Out)
    requires AppEnabled(s, a) && a != Settle(t) && out.AsGiven?
    requires t in AppNext(s, a).ops && AppNext(s, a).ops[t] == Sending(out)
    ensures t in s.ops && s.ops[t] == Sending(out)
  {
    hide Settled, Find, Forgot, DoRegister, DoUnregister, DoClose, DoReceive, Registering, HandleClosed, Deregistered;
  }

  /** A frame in a task's hands was put there by a call of that task. */
  lemma {:induction false} HeldHasCall(states: seq<State>, steps: seq<Step>, i: nat, t: Tid, out: Out)
    requires IsRun(states, steps) && i < |states| == |steps| + 1 && out.AsGiven?
    requires t in states[i].ops && states[i].ops[t] == Sending(out)
    ensures InHandsOf(states, steps, i, t, out)
  {
    hide IsRun, Next, Enabled, Sound, GivenBy, NotFound, INIT;
    NothingHeldAtFirst(states, steps);
    if i > 0 {
      RunStep(states, steps, i - 1);
      if t in states[i - 1].ops && states[i - 1].ops[t] == Sending(out) {
        HeldHasCall(states, steps, i - 1, t, out);
        HandsLonger(states, steps, i, t, out);
      } else {
        RunSound(states, steps, i - 1);
        SoundParts(states[i - 1]);
        GivenMoves(states[i - 1], steps[i - 1], t, out);
        JustGiven(states, steps, i - 1, t, out);
      }
    }
  }

  lemma HandsLonger(states: seq<State>, steps: seq<Step>, i: nat, t: Tid, out: Out)
    requires 0 < i <= |steps| && |states| == |steps| + 1 && out.AsGiven? && InHandsOf(states, steps, i - 1, t, out)
    requires t in states[i].ops && states[i].ops[t] == Sending(out)
    ensures InHandsOf(states, steps, i, t, out)
  {
    hide GivenBy;
    var b, c :| 0 <= b < c < i - 1 && GivenBy(states, steps, b, c, t, out)
                && HeldSince(states, c, i - 1, t, Sending(out));
    assert HeldSince(states, c, i, t, Sending(out));
  }

  lemma JustGiven(states: seq<State>, steps: seq<Step>, c: nat, t: Tid, out: Out)
    requires IsRun(states, steps) && c < |steps| && |states| == |steps| + 1 && out.AsGiven?
    requires steps[c] == App(Settle(t)) && AboutToGive(states[c + 1], t, out.sub, out.given)
    requires t in states[c].ops && states[c].ops[t].Settling?
    requires states[c].ops[t].sub == out.sub && states[c].ops[t].named == out.given
    ensures InHandsOf(states, steps, c + 1, t, out)
  {
    hide IsRun, NotFound;
    var op := states[c].ops[t];
    SentAsGivenExactly(states, steps, c, t, op);
    var b :| 0 <= b < c
             && steps[b] == App(BeginAck(t, op.sub, op.named)) && ModeOf(states[b].reg, op.sub) == op.managed
             && HeldSince(states, b, c, t, op)
             && (AboutToGive(states[c + 1], t, op.sub, op.named)
                 <==> NotFound(states[c], op.sub, op.named) && !Acking(states[b].reg, op.sub));
    hide ModeOf, Acking;
    assert GivenBy(states, steps, b, c, t, out);
    assert HeldSince(states, c, c + 1, t, Sending(out));
  }

  lemma NothingHeldAtFirst(states: seq<State>, steps: seq<Step>)
    requires IsRun(states, steps)
    ensures |states| > 0 && states[0].ops == map[] && states[0].wire.queued == []
  {
    hide Enabled, Next;
  }

  /** A frame sent as given is queued by the task that holds it. */
  lemma GivenQueues(s: State, e: Step, n: nat)
    requires Enabled(s, e) && Good(s) && |s.wire.queued| <= n < |Next(s, e).wire.queued|
    requires Next(s, e).wire.queued[n].AsGiven?
    ensures n == |s.wire.queued| && e.App? && e.a.Enqueue?
    ensures e.a.t in s.ops && s.ops[e.a.t] == Sending(Next(s, e).wire.queued[n])
  {
    match e {
      case App(a) =>
        AppQueues(s, a);
        hide Good, AppNext;
      case Io(i) =>
        GoodParts(s);
        TaskFrame(s, i);
        hide Good, TaskNext;
      case Net(k) =>
    }
  }

  /** An application section queues at most one item; one sent as given was in its task's hands. */
  lemma AppQueues(s: State, a: AppStep)
    requires AppEnabled(s, a)
    ensures |AppNext(s, a).wire.queued| <= |s.wire.queued| + 1
    ensures |AppNext(s, a).wire.queued| > |s.wire.queued| && AppNext(s, a).wire.queued[|s.wire.queued|].AsGiven? ==>
              && a.Enqueue? && a.t in s.ops && s.ops[a.t] == Sending(AppNext(s, a).wire.queued[|s.wire.queued|])
  {
    hide Settled, Find, Forgot, DoRegister, DoUnregister, DoClose, DoReceive, Registering, HandleClosed, Deregistered;
  }

  /**
   * Every such frame in the log was queued by the task that holds it, in a call
   * that found nothing, for a subscription not in a client mode as it began.
   */
  lemma {:induction false} GivenHasCall(states: seq<State>, steps: seq<Step>, i: nat, n: nat)
    requires IsRun(states, steps) && i < |states| == |steps| + 1
    requires n < |states[i].wire.queued| && states[i].wire.queued[n].AsGiven?
    ensures QueuedByCall(states, steps, i, n, states[i].wire.queued[n])
  {
    hide IsRun, Next, Enabled, Sound, InHandsOf, INIT;
    NothingHeldAtFirst(states, steps);
    if i > 0 {
      var s, e := states[i - 1], steps[i - 1];
      RunStep(states, steps, i - 1);
      RunSound(states, steps, i - 1);
      SoundParts(s);
      LogGrows(states, steps, i - 1);
      if n < |s.wire.queued| {
        GivenHasCall(states, steps, i - 1, n);
      } else {
        GivenQueues(s, e, n);
        HeldHasCall(states, steps, i - 1, e.a.t, states[i].wire.queued[n]);
      }
    }
  }

  lemma LogGrows(states: seq<State>, steps: seq<Step>, i: nat)
    requires IsRun(states, steps) && i < |steps| && |states| == |steps| + 1
    ensures states[i].wire.queued <= states[i + 1].wire.queued
  {
    RunFollows(states, steps, i, i + 1);
    hide IsRun, RegEvolves, BookKept, AnswersKept;
  }

  // ---------------------------------------------------------------- all ACK and NACK frames

  /**
   * Every ACK or NACK frame that was written in session `s` either carries the
   * ack id of a MESSAGE recorded in session `s`, or was sent as given by a call
   * that found nothing outstanding for a subscription not registered in a
   * client mode as the call began.
   */
  lemma EveryAckFrame(states: seq<State>, steps: seq<Step>, i: nat, n: nat)
    requires IsRun(states, steps) && i < |states| == |steps| + 1
    requires n < |states[i].wire.disposed| <= |states[i].wire.queued|
    requires IsAckFrame(states[i].wire.queued[n]) && states[i].wire.disposed[n].Handed?
    ensures var out := states[i].wire.queued[n];
            match out
            case Ack(sub, ackId, _, serial) =>
              && Key(sub, serial) in states[i].ledger.book
              && states[i].ledger.book[Key(sub, serial)].pend.ackId == ackId
              && states[i].ledger.book[Key(sub, serial)].pend.session == states[i].wire.disposed[n].session
            case _ => QueuedByCall(states, steps, i, n, out)
  {
    var out := states[i].wire.queued[n];
    hide IsRun, QueuedByCall;
    if out.Ack? {
      NoStaleAck(states, steps, i, n);
    } else {
      GivenHasCall(states, steps, i, n);
    }
  }

  /** Each call that acknowledges on `sub` began while it was registered in a client mode. */
  predicate AckedWhileRegistered(states: seq<State>, steps: seq<Step>, i: nat, sub: SubId)
    requires i <= |steps| && |states| == |steps| + 1
  {
    forall b | 0 <= b < i && steps[b].App? && steps[b].a.BeginAck? && steps[b].a.sub == sub ::
      Acking(states[b].reg, sub)
  }

  /**
   * If every call on a subscription began while it was registered in a client
   * mode, then every ACK or NACK frame for it names a recorded delivery, and
   * when it was written, one recorded in the session it was written in.
   */
  lemma RegisteredAcksAreFresh(states: seq<State>, steps: seq<Step>, i: nat, sub: SubId, n: nat)
    requires IsRun(states, steps) && i < |states| == |steps| + 1 && AckedWhileRegistered(states, steps, i, sub)
    requires n < |states[i].wire.queued| && AckFrameFor(states[i].wire.queued[n], sub)
    ensures states[i].wire.queued[n].Ack?
    ensures n < |states[i].wire.disposed| && states[i].wire.disposed[n].Handed? ==>
              RecordedIn(states[i].ledger, states[i].wire.queued[n], states[i].wire.disposed[n].session)
  {
    hide IsRun;
    NoneGiven(states, steps, i, sub, n);
    DisposedFits(states, steps, i);
    if n < |states[i].wire.disposed| && states[i].wire.disposed[n].Handed? {
      NoStaleAck(states, steps, i, n);
    }
  }

  /** Nor do two of them, ever queued, name the same delivery. */
  lemma RegisteredAcksDiffer(states: seq<State>, steps: seq<Step>, i: nat, sub: SubId, m: nat, n: nat)
    requires IsRun(states, steps) && i < |states| == |steps| + 1 && AckedWhileRegistered(states, steps, i, sub)
    requires m < n < |states[i].wire.queued|
    requires AckFrameFor(states[i].wire.queued[m], sub) && AckFrameFor(states[i].wire.queued[n], sub)
    ensures states[i].wire.queued[m].Ack? && states[i].wire.queued[n].Ack?
    ensures states[i].wire.queued[m].serial != states[i].wire.queued[n].serial
  {
    hide IsRun;
    NoneGiven(states, steps, i, sub, m);
    NoneGiven(states, steps, i, sub, n);
    NeverNamedTwice(states, steps, i, m, n);
  }

  /** The delivery an acknowledgement names was recorded in this session, under the ack id it carries. */
  predicate RecordedIn(l: Ledger, out: Out, session: nat)
    requires out.Ack?
  {
    && Key(out.sub, out.serial) in l.book
    && l.book[Key(out.sub, out.serial)].pend.ackId == out.ackId
    && l.book[Key(out.sub, out.serial)].pend.session == session
  }

  lemma NoneGiven(states: seq<State>, steps: seq<Step>, i: nat, sub: SubId, n: nat)
    requires IsRun(states, steps) && i < |states| == |steps| + 1 && AckedWhileRegistered(states, steps, i, sub)
    requires n < |states[i].wire.queued| && AckFrameFor(states[i].wire.queued[n], sub)
    ensures states[i].wire.queued[n].Ack?
  {
    hide IsRun;
    var out := states[i].wire.queued[n];
    if out.AsGiven? {
      GivenHasCall(states, steps, i, n);
    }
  }

  lemma DisposedFits(states: seq<State>, steps: seq<Step>, i: nat)
    requires IsRun(states, steps) && i < |states|
    ensures |states[i].wire.disposed| <= |states[i].wire.queued|
  {
    RunSound(states, steps, i);
    hide IsRun, RegGood, PhaseGood, LedgerPart, ReceiptsGood, OpsPart, Delivered, NamedOnce, CursorGood, WritingClean;
  }
}
