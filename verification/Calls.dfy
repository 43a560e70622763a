/** What application calls send, hold and are told, over every run. */
module Calls {
  import opened Options
  import opened Types
  import opened Registry
  import opened Ledger
  import opened Wire
  import opened Halt
  import opened Client
  import opened Invariant
  import opened Delivery
  import opened Acks
  import opened Runs

  // ---------------------------------------------------------------- the outbound log

  /** What a step queues: the frame its call has ready, a dropped handle's UNSUBSCRIBE, a caller's own. */
  function Sends(s: State, e: Step): seq<Out> {
    match e
    case App(Enqueue(t)) => if t in s.ops then FrameReady(s.ops[t]) else []
    case App(DropSend(t, true)) => if t in s.ops && s.ops[t].DropSending? then [Unsubscribe(s.ops[t].id)] else []
    case App(RawSend(out)) => [out]
    case _ => []
  }

  function FrameReady(op: Op): seq<Out> {
    match op
    case Subscribing(id) => [Subscribe(id)]
    case Sending(out) => [out]
    case ReceiptSending(r) => [Plain(Some(r))]
    case _ => []
  }

  function SentSoFar(states: seq<State>, steps: seq<Step>, i: nat): seq<Out>
    requires i <= |steps| && |states| == |steps| + 1
  {
    if i == 0 then [] else SentSoFar(states, steps, i - 1) + Sends(states[i - 1], steps[i - 1])
  }

  lemma StepSends(s: State, e: Step)
    requires Enabled(s, e) && Good(s)
    ensures Next(s, e).wire.queued == s.wire.queued + Sends(s, e)
  {
    match e {
      case App(a) =>
        hide Good;
        AppSends(s, a);
        hide AppNext;
      case Io(i) =>
        GoodParts(s);
        TaskFrame(s, i);
        hide Good, TaskNext;
      case Net(n) =>
    }
  }

  lemma AppSends(s: State, a: AppStep)
    requires AppEnabled(s, a)
    ensures AppNext(s, a).wire.queued == s.wire.queued + Sends(s, App(a))
  {
    hide Settled, Find, Forgot, DoRegister, DoUnregister, DoClose, DoReceive, Registering, HandleClosed, Deregistered;
  }

  /** Over every run: everything ever queued for the broker is what the calls sent, in the order they sent it. */
  lemma {:induction false} LogIsWhatWasSent(states: seq<State>, steps: seq<Step>, i: nat)
    requires IsRun(states, steps) && i < |states| == |steps| + 1
    ensures states[i].wire.queued == SentSoFar(states, steps, i)
  {
    hide IsRun, Next, Enabled, Sound, Sends, INIT;
    RunSize(states, steps);
    if i == 0 {
      BlankAtFirst(states[0]);
    } else {
      LogIsWhatWasSent(states, steps, i - 1);
      RunStep(states, steps, i - 1);
      RunSound(states, steps, i - 1);
      SoundParts(states[i - 1]);
      StepSends(states[i - 1], steps[i - 1]);
    }
  }

  lemma BlankAtFirst(s: State)
    requires s == INIT
    ensures s.wire.queued == [] && s.wire.disposed == [] && s.wire.seen == {} && s.ops == map[]
    ensures s.receipts.awaiting == {} && s.receipts.answers == map[] && s.receipts.closed == {}
  {
  }

  // ---------------------------------------------------------------- a call, section by section

  /** What a section leaves the acting task to do next; `None` when its call is over, or it is in none. */
  predicate GoesOn(s: State, a: AppStep, next: Option<Op>)
    requires AppEnabled(s, a)
  {
    match a
    case Register(_, _, _, _, _) => next == Some(Subscribing(s.reg.nextId))
    case Unregister(_, id) => next == if Registered(s.reg, id) then Some(UnsubForgetting(id)) else None
    case UnsubForget(t) => next == Some(Sending(Unsubscribe(s.ops[t].id)))
    case DropHandle(_, id, _) => next == Some(DropForgetting(id))
    case DropForget(t, _) => next == Some(DropSending(s.ops[t].id))
    case BeginAck(_, sub, named) =>
      next == Some(Settling(sub, named, if Registered(s.reg, sub) then Some(s.reg.subs[sub].mode) else None))
    case Settle(t) => Decides(s, s.ops[t], next)
    case RegisterReceipt(_) => next == Some(ReceiptSending(s.receipts.next))
    case _ => next == None
  }

  /** What an acknowledgement sends: the ack id of the delivery found, nothing in a client mode, else its id. */
  predicate Decides(s: State, op: Op, next: Option<Op>)
    requires op.Settling?
  {
    var q := QueueOf(s.ledger.pending, op.sub);
    if exists p | p in q :: p.ackId == op.named || p.msgId == op.named
    then
      && next.Some? && next.value.Sending? && next.value.out.Ack? && next.value.out.sub == op.sub
      && exists p | p in q ::
           && (p.ackId == op.named || p.msgId == op.named)
           && next.value.out.ackId == p.ackId && next.value.out.session == p.session
           && next.value.out.serial == p.serial
    else if op.managed == Some(Cumulative) || op.managed == Some(Individual) then next == None
    else next == Some(Sending(AsGiven(op.sub, op.named)))
  }

  function HeldBy(ops: map<Tid, Op>, t: Tid): Option<Op> {
    if t in ops then Some(ops[t]) else None
  }

  lemma AppGoesOn(s: State, a: AppStep)
    requires AppEnabled(s, a)
    ensures InCall(a) ==> GoesOn(s, a, HeldBy(AppNext(s, a).ops, Actor(a)))
    ensures forall t | t != Actor(a) || !InCall(a) :: HeldBy(AppNext(s, a).ops, t) == HeldBy(s.ops, t)
  {
    hide Settled, Forgot, DoRegister, DoUnregister, DoClose, DoReceive, Registering, HandleClosed, Deregistered, Find;
    hide Decides;
    if a.Settle? {
      SettleDecides(s, a.t, s.ops[a.t]);
    }
  }

  lemma SettleDecides(s: State, t: Tid, op: Op)
    requires op.Settling? && t in s.ops
    ensures Decides(s, op, HeldBy(DoSettle(s, t, op.sub, op.named, op.managed).ops, t))
  {
    var q := QueueOf(s.ledger.pending, op.sub);
    var pos := Find(q, op.named);
    hide Settled;
    if pos < |q| {
      assert q[pos] in q;
    }
  }

  /**
   * Over every run: a section of a call leaves its task with what that call
   * does next, in this order: to register and then send SUBSCRIBE; to take the
   * entry off the registry, then forget what is pending, then send UNSUBSCRIBE,
   * or nothing at all for an id that is not registered; to read the mode, then
   * settle, then send what that decided. Every other task's call stands still.
   */
  lemma CallGoesOn(states: seq<State>, steps: seq<Step>, i: nat, a: AppStep)
    requires IsRun(states, steps) && i < |steps| && |states| == |steps| + 1 && steps[i] == App(a)
    ensures AppEnabled(states[i], a)
    ensures InCall(a) ==> GoesOn(states[i], a, HeldBy(states[i + 1].ops, Actor(a)))
    ensures forall t | t != Actor(a) || !InCall(a) :: HeldBy(states[i + 1].ops, t) == HeldBy(states[i].ops, t)
  {
    hide IsRun, AppNext, AppEnabled, GoesOn, HeldBy;
    RunStep(states, steps, i);
    AppGoesOn(states[i], a);
  }

  /** What a task can do next: begin any call when it is in none, and go on with the one it is in. */
  predicate CanGoOn(s: State, t: Tid) {
    match HeldBy(s.ops, t)
    case None => AppEnabled(s, RegisterReceipt(t))
    case Some(op) =>
      match op
      case UnsubForgetting(_) => AppEnabled(s, UnsubForget(t)) && AppEnabled(s, Cancel(t))
      case DropForgetting(_) => AppEnabled(s, DropForget(t, true)) && AppEnabled(s, DropForget(t, false))
      case DropSending(_) => AppEnabled(s, DropSend(t, true)) && AppEnabled(s, DropSend(t, false))
      case Settling(_, _, _) => AppEnabled(s, Settle(t)) && AppEnabled(s, Cancel(t))
      case _ => AppEnabled(s, Enqueue(t)) && AppEnabled(s, Cancel(t))
  }

  /**
   * No call waits for another, whatever the task does: in every state each task
   * can go on, or begin any call, and each consumer can take what is there.
   */
  lemma NoCallBlocks(s: State, t: Tid)
    ensures CanGoOn(s, t)
    ensures t !in s.ops ==>
              && (forall dest, mode, limit, capacity :: AppEnabled(s, Register(t, dest, mode, limit, capacity)))
              && (forall id :: AppEnabled(s, Unregister(t, id)))
              && (forall id, locked | id in s.reg.subs :: AppEnabled(s, DropHandle(t, id, locked)))
              && (forall id, named :: AppEnabled(s, BeginAck(t, id, named)))
    ensures forall id | id in s.reg.subs && s.reg.subs[id].lane.open && s.reg.subs[id].lane.channel != [] ::
              AppEnabled(s, Receive(id))
    ensures AppEnabled(s, Signal)
  {
  }

  // ---------------------------------------------------------------- writing

  /** What a step disposes of. */
  function Disposes(s: State, e: Step): seq<Disposal> {
    match e
    case Io(Take) =>
      if s.phase.Idle? && Waits(s.wire) && Front(s.wire).Ack? && Front(s.wire).session != s.session then [Stale] else []
    case Io(WriteDone(ok)) => [if ok then Handed(s.session) else WriteFailed(s.session)]
    case _ => []
  }

  lemma StepDisposes(s: State, e: Step)
    requires Enabled(s, e)
    ensures Next(s, e).wire.disposed == s.wire.disposed + Disposes(s, e)
    ensures e == Io(Take) ==>
              if Disposes(s, e) != [] then Next(s, e).phase.Idle?
              else if Front(s.wire).Unsubscribe? then Next(s, e).phase == Forgetting(Front(s.wire).id)
              else Next(s, e).phase.Writing?
  {
    match e {
      case App(a) =>
        AppFrame(s, a);
        hide AppNext;
      case Io(i) =>
        if i.Take? || i.WriteDone? {
          hide Lists, Woken, Overrun;
        } else {
          OtherDisposed(s, i);
          hide TaskNext;
        }
      case Net(n) =>
    }
  }

  /**
   * Over every run: an item is skipped exactly when it is an acknowledgement of
   * another session; any other is written, and disposed of as its write went,
   * in the session in use. An UNSUBSCRIBE first has its pending queue forgotten.
   */
  lemma WritesInTurn(states: seq<State>, steps: seq<Step>, i: nat)
    requires IsRun(states, steps) && i < |steps| && |states| == |steps| + 1
    ensures states[i + 1].wire.disposed == states[i].wire.disposed + Disposes(states[i], steps[i])
    ensures steps[i] == Io(Take) ==>
              && states[i].phase.Idle? && Waits(states[i].wire)
              && if Disposes(states[i], steps[i]) != [] then states[i + 1].phase.Idle?
                 else if Front(states[i].wire).Unsubscribe?
                 then states[i + 1].phase == Forgetting(Front(states[i].wire).id)
                 else states[i + 1].phase.Writing?
  {
    hide IsRun, Next, Disposes;
    RunStep(states, steps, i);
    StepDisposes(states[i], steps[i]);
    hide AppEnabled, Lists, Woken, Overrun;
  }

  /** The step hands the broker a SUBSCRIBE for `id`. */
  predicate HandsSubscribe(s: State, e: Step, id: SubId) {
    || (e == Io(WriteDone(true)) && Waits(s.wire) && Front(s.wire) == Subscribe(id))
    || (e == Io(ReplayOne(true)) && s.phase.Replaying? && s.phase.ids != [] && s.phase.ids[0] == id)
  }

  lemma StepSeen(s: State, e: Step, id: SubId)
    requires Enabled(s, e)
    ensures id in Next(s, e).wire.seen <==> id in s.wire.seen || HandsSubscribe(s, e, id)
  {
    match e {
      case App(a) =>
        AppFrame(s, a);
        hide AppNext;
      case Io(i) =>
        if i.Take? || i.WriteDone? || i.ReplayOne? {
          hide Lists, Woken, Overrun;
        } else {
          if !i.EndSession? {
            OthersKeepWire(s, i);
            hide TaskNext;
          }
        }
      case Net(n) =>
    }
  }

  /** Over every run: `seen` holds exactly the ids a SUBSCRIBE was handed over for, from the queue or by a replay. */
  lemma {:induction false} SeenExactly(states: seq<State>, steps: seq<Step>, i: nat, id: SubId)
    requires IsRun(states, steps) && i < |states| == |steps| + 1
    ensures id in states[i].wire.seen <==> exists k | 0 <= k < i :: HandsSubscribe(states[k], steps[k], id)
  {
    hide IsRun, Next, Enabled, HandsSubscribe, INIT;
    RunSize(states, steps);
    if i == 0 {
      BlankAtFirst(states[0]);
    } else {
      SeenExactly(states, steps, i - 1, id);
      RunStep(states, steps, i - 1);
      StepSeen(states[i - 1], steps[i - 1], id);
    }
  }

  // ---------------------------------------------------------------- receipts

  /** The step answers the receipt, for a handle that is there. */
  predicate Answers(s: State, e: Step, r: ReceiptId, ok: bool) {
    e == Io(Answer(r, ok)) && r in s.receipts.awaiting && r !in s.receipts.closed
  }

  /** The step takes the receipt out of the table. */
  predicate Settles(s: State, e: Step, r: ReceiptId) {
    || (e.Io? && e.i.Answer? && e.i.receipt == r)
    || e == App(Deregister(r))
    || (e.App? && e.a.SendFailed? && e.a.t in s.ops && s.ops[e.a.t] == ReceiptSending(r))
  }

  predicate AsksFor(s: State, e: Step, r: ReceiptId) {
    e.App? && e.a.RegisterReceipt? && r == s.receipts.next
  }

  lemma StepReceipts(s: State, e: Step, r: ReceiptId)
    requires Enabled(s, e)
    ensures var n := Next(s, e).receipts;
            && (r in n.awaiting <==> AsksFor(s, e, r) || (r in s.receipts.awaiting && !Settles(s, e, r)))
            && (r in n.answers <==> r in s.receipts.answers || exists ok :: Answers(s, e, r, ok))
            && (r in n.answers ==> if Answers(s, e, r, n.answers[r]) then true
                                   else r in s.receipts.answers && n.answers[r] == s.receipts.answers[r])
            && n.next == s.receipts.next + (if AsksFor(s, e, s.receipts.next) then 1 else 0)
  {
    match e {
      case App(a) => AppReceipts(s, a, r);
      case Io(i) =>
        if i.Answer? {
          hide Lists, Woken, Overrun;
          assert r == i.receipt && r in s.receipts.awaiting && r !in s.receipts.closed ==> Answers(s, e, r, i.ok);
        } else {
          NoReceiptMoves(s, i);
          hide TaskNext;
        }
      case Net(n) =>
    }
  }

  lemma AppReceipts(s: State, a: AppStep, r: ReceiptId)
    requires AppEnabled(s, a)
    ensures var n := AppNext(s, a).receipts;
            && (r in n.awaiting <==> AsksFor(s, App(a), r) || (r in s.receipts.awaiting && !Settles(s, App(a), r)))
            && n.answers == s.receipts.answers
            && n.next == s.receipts.next + (if AsksFor(s, App(a), s.receipts.next) then 1 else 0)
  {
    hide Settled, Find, Forgot, DoRegister, DoUnregister, DoClose, DoReceive;
  }

  lemma NoReceiptMoves(s: State, e: TaskStep)
    requires TaskEnabled(s, e) && !e.Answer?
    ensures TaskNext(s, e).receipts == s.receipts
  {
    hide Recorded, SessionEnded, Forgot, RegisteredIds, DoClean, DoDeliver, DoWake, DoPrune, DoFail, DoBrokerError;
    hide DoExit, AckTargets, Acking, Lists, Woken, Overrun, Disposed, Writable, Looked, TryOk, Ready;
  }

  /** A step at which the receipt was answered for its handle. */
  ghost predicate AnsweredAt(states: seq<State>, steps: seq<Step>, i: nat, r: ReceiptId, ok: bool)
    requires i <= |steps| && |states| == |steps| + 1
  {
    exists k | 0 <= k < i :: Answers(states[k], steps[k], r, ok)
  }

  /**
   * Over every run: a handle was told `ok` exactly when a RECEIPT, or an ERROR,
   * for its id came while the id was in the table and the handle was there.
   */
  lemma {:induction false} AnsweredExactly(states: seq<State>, steps: seq<Step>, i: nat, r: ReceiptId, ok: bool)
    requires IsRun(states, steps) && i < |states| == |steps| + 1
    ensures r in states[i].receipts.answers && states[i].receipts.answers[r] == ok
            <==> AnsweredAt(states, steps, i, r, ok)
  {
    hide IsRun, Next, Enabled, Sound, Answers, Settles, AsksFor, INIT;
    RunSize(states, steps);
    if i == 0 {
      BlankAtFirst(states[0]);
    } else {
      var s, e := states[i - 1], steps[i - 1];
      AnsweredExactly(states, steps, i - 1, r, ok);
      RunStep(states, steps, i - 1);
      RunSound(states, steps, i - 1);
      StepReceipts(s, e, r);
      AnsweredMore(states, steps, i, r, ok);
      OneAnswerAt(s, e, r, ok);
    }
  }

  lemma AnsweredMore(states: seq<State>, steps: seq<Step>, i: nat, r: ReceiptId, ok: bool)
    requires 0 < i <= |steps| && |states| == |steps| + 1
    ensures AnsweredAt(states, steps, i, r, ok)
            <==> AnsweredAt(states, steps, i - 1, r, ok) || Answers(states[i - 1], steps[i - 1], r, ok)
  {
    hide Answers;
  }

  /** What is answered is not in the table, and one step answers in one way. */
  lemma OneAnswerAt(s: State, e: Step, r: ReceiptId, ok: bool)
    requires Sound(s)
    ensures r in s.receipts.answers ==> !Answers(s, e, r, ok) && !Answers(s, e, r, !ok)
    ensures !(Answers(s, e, r, ok) && Answers(s, e, r, !ok))
  {
    hide RegGood, PhaseGood, LedgerPart, OpsPart, HistoryPart, NamedOnce, Delivered, CursorGood;
  }

  /** Asked for by some step, and not settled since. */
  ghost predicate Awaits(states: seq<State>, steps: seq<Step>, i: nat, r: ReceiptId)
    requires i <= |steps| && |states| == |steps| + 1
  {
    exists g | 0 <= g < i ::
      AsksFor(states[g], steps[g], r) && forall k | g < k < i :: !Settles(states[k], steps[k], r)
  }

  /** Over every run: an id is in the table from the call that made it until it is answered, given up, or not sent. */
  lemma {:induction false} AwaitingExactly(states: seq<State>, steps: seq<Step>, i: nat, r: ReceiptId)
    requires IsRun(states, steps) && i < |states| == |steps| + 1
    ensures r in states[i].receipts.awaiting <==> Awaits(states, steps, i, r)
  {
    hide IsRun, Next, Enabled, Settles, AsksFor, Answers, INIT;
    RunSize(states, steps);
    if i == 0 {
      BlankAtFirst(states[0]);
    } else {
      AwaitingExactly(states, steps, i - 1, r);
      RunStep(states, steps, i - 1);
      StepReceipts(states[i - 1], steps[i - 1], r);
      AwaitsMore(states, steps, i, r);
    }
  }

  lemma AwaitsMore(states: seq<State>, steps: seq<Step>, i: nat, r: ReceiptId)
    requires 0 < i <= |steps| && |states| == |steps| + 1
    ensures Awaits(states, steps, i, r)
            <==> (AsksFor(states[i - 1], steps[i - 1], r)
                  || (Awaits(states, steps, i - 1, r) && !Settles(states[i - 1], steps[i - 1], r)))
  {
    hide AsksFor, Settles;
    if Awaits(states, steps, i, r) {
      var g :| 0 <= g < i && AsksFor(states[g], steps[g], r)
               && forall k | g < k < i :: !Settles(states[k], steps[k], r);
    }
  }

  /** The step gives the handle up: its owner drops it, or its call ends without one. */
  predicate GivesUp(s: State, e: Step, r: ReceiptId) {
    || e == App(CloseHandle(r))
    || (e.App? && (e.a.Cancel? || e.a.SendFailed?) && e.a.t in s.ops && s.ops[e.a.t] == ReceiptSending(r))
  }

  lemma StepGivesUp(s: State, e: Step, r: ReceiptId)
    requires Enabled(s, e)
    ensures r in Next(s, e).receipts.closed <==> r in s.receipts.closed || GivesUp(s, e, r)
  {
    match e {
      case App(a) => hide Settled, Find, Forgot, DoRegister, DoUnregister, DoClose, DoReceive;
      case Io(i) =>
        if i.Answer? {
          hide Lists, Woken, Overrun;
        } else {
          NoReceiptMoves(s, i);
          hide TaskNext;
        }
      case Net(n) =>
    }
  }

  /** Over every run: a handle is gone exactly when some step gave it up. */
  lemma {:induction false} GivenUpExactly(states: seq<State>, steps: seq<Step>, i: nat, r: ReceiptId)
    requires IsRun(states, steps) && i < |states| == |steps| + 1
    ensures r in states[i].receipts.closed <==> exists k | 0 <= k < i :: GivesUp(states[k], steps[k], r)
  {
    hide IsRun, Next, Enabled, GivesUp, INIT;
    RunSize(states, steps);
    if i == 0 {
      BlankAtFirst(states[0]);
    } else {
      GivenUpExactly(states, steps, i - 1, r);
      RunStep(states, steps, i - 1);
      StepGivesUp(states[i - 1], steps[i - 1], r);
    }
  }
}
