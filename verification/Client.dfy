/**
 * The client as a state machine. Each step is one section of the code that
 * runs under one lock (or touches one channel); sections of the I/O task and
 * of any number of application tasks interleave freely.
 */
module Client {
  import opened Options
  import opened Lane
  import opened Types
  import opened Registry
  import opened Ledger
  import opened Wire
  import opened Halt

  /** An application call between two of its sections. */
  datatype Op =
    | Subscribing(id: SubId)
    | Settling(sub: SubId, named: Token, managed: Option<AckMode>)
    | Sending(out: Out)
    | UnsubForgetting(id: SubId)
    | DropForgetting(id: SubId)
    | DropSending(id: SubId)
    | ReceiptSending(receipt: ReceiptId)

  /** The parts of a reconnect attempt that can fail. */
  datatype Stage = Connecting | Greeting | Handshaking

  /** Where the I/O task stands. A backoff follows a failed attempt, or a session. */
  datatype Phase =
    | Boot
    | Fresh(replay: bool)
    | Snapshot
    | Replaying(ids: seq<SubId>)
    | Idle
    | Forgetting(id: SubId)
    | Writing
    | Collecting(m: Message)
    | Recording(m: Message, targets: set<SubId>)
    | Delivering(m: Message)
    | Sweeping(live: set<SubId>, failed: seq<SubId>)
    | Failing(failed: seq<SubId>)
    | Unpending(id: SubId)
    | Dropped
    | Backoff(after: Option<Stage>)
    | Head
    | Passed
    | Dialing(stage: Stage)
    | Exiting
    | Done(horizon: SubId)

  /**
   * `session` counts connections from 0. History: `released` holds the ids
   * whose handle was dropped or whose UNSUBSCRIBE went out, `nextSerial` counts
   * arrivals.
   */
  datatype State = State(
    reg: Reg, ledger: Ledger, wire: Wire, receipts: Receipts,
    ops: map<Tid, Op>, released: set<SubId>,
    phase: Phase, session: nat, nextSerial: nat, halt: Halt)

  const INIT: State := State(EMPTY, BLANK, Wire([], [], {}, {}), NO_RECEIPTS, map[], {}, Boot, 0, 0, RUNNING)

  /** Sections run by application tasks, and what is done to the handles they hold. */
  datatype AppStep =
    | Register(t: Tid, dest: Dest, mode: AckMode, limit: nat, capacity: nat)
    | Unregister(t: Tid, id: SubId)
    | UnsubForget(t: Tid)
    | DropHandle(t: Tid, id: SubId, locked: bool)
    | DropForget(t: Tid, locked: bool)
    | DropSend(t: Tid, sent: bool)
    | BeginAck(t: Tid, sub: SubId, named: Token)
    | Settle(t: Tid)
    | RegisterReceipt(t: Tid)
    | Enqueue(t: Tid)
    | Cancel(t: Tid)
    | SendFailed(t: Tid)
    | RawSend(out: Out)
    | Receive(id: SubId)
    | CloseReceiver(id: SubId)
    | CloseHandle(receipt: ReceiptId)
    | Deregister(receipt: ReceiptId)
    | Signal

  /** Sections run by the I/O task. */
  datatype TaskStep =
    | Start
    | Clean
    | TakeSnapshot(ids: seq<SubId>)
    | ReplayOne(ok: bool)
    | Take
    | ForgetWritten
    | WriteDone(ok: bool)
    | Arrive(dest: Option<Dest>, sub: Option<SubId>, msgId: Option<Token>, ackId: Option<Token>)
    | Collect
    | Record
    | Deliver(woken: seq<SubId>, failed: seq<SubId>)
    | Sweep
    | FailOne(ok: bool)
    | Wake(id: SubId)
    | Unpend
    | Prune
    | Answer(receipt: ReceiptId, ok: bool)
    | BrokerError(dead: Dest, message: string)
    | Lose
    | TakeSignal
    | EndSession
    | EndBackoff
    | CheckHead
    | Dial
    | Attempt(ok: bool)
    | Exit

  /** `Net`: the broker processes the item handed to a connection as the n-th of the log. */
  datatype Step = App(a: AppStep) | Io(i: TaskStep) | Net(n: nat)

  predicate AppEnabled(s: State, e: AppStep) {
    match e
    case Register(t, _, _, _, _) => t !in s.ops
    case Unregister(t, _) => t !in s.ops
    case UnsubForget(t) => t in s.ops && s.ops[t].UnsubForgetting?
    case DropHandle(t, id, _) => t !in s.ops && id in s.reg.subs
    case DropForget(t, _) => t in s.ops && s.ops[t].DropForgetting?
    case DropSend(t, _) => t in s.ops && s.ops[t].DropSending?
    case BeginAck(t, _, _) => t !in s.ops
    case Settle(t) => t in s.ops && s.ops[t].Settling?
    case RegisterReceipt(t) => t !in s.ops
    case Enqueue(t) => t in s.ops && (s.ops[t].Sending? || s.ops[t].Subscribing? || s.ops[t].ReceiptSending?)
    case Cancel(t) => t in s.ops && !s.ops[t].DropForgetting? && !s.ops[t].DropSending?
    case SendFailed(t) => t in s.ops && s.ops[t].ReceiptSending?
    case RawSend(out) => out.Unsubscribe? || out == Plain(None) || out.Own?
    case Receive(id) => id in s.reg.subs && s.reg.subs[id].lane.open && s.reg.subs[id].lane.channel != []
    case CloseReceiver(id) => id in s.reg.subs
    case CloseHandle(r) => r < s.receipts.next
    case Deregister(r) => r in s.receipts.closed
    case Signal => true
  }

  predicate TaskEnabled(s: State, e: TaskStep) {
    match e
    case Start => s.phase.Boot?
    case Clean => s.phase.Fresh?
    case TakeSnapshot(ids) => s.phase.Snapshot? && Lists(ids, RegisteredIds(s.reg))
    case ReplayOne(_) => s.phase.Replaying?
    case Take => s.phase.Idle? && Waits(s.wire)
    case ForgetWritten => s.phase.Forgetting?
    case WriteDone(_) => s.phase.Writing? && Waits(s.wire)
    case Arrive(_, _, _, _) => s.phase.Idle?
    case Collect => s.phase.Collecting?
    case Record => s.phase.Recording?
    case Deliver(woken, failed) =>
      s.phase.Delivering? && Lists(woken, Woken(s.reg, s.phase.m)) && Lists(failed, Overrun(s.reg, s.phase.m))
    case Sweep => s.phase.Sweeping?
    case FailOne(_) => s.phase.Failing?
    case Wake(id) =>
      s.phase.Idle? && id in s.reg.parked && id in s.reg.subs
      && (!s.reg.subs[id].lane.open || |s.reg.subs[id].lane.channel| < s.reg.subs[id].lane.capacity)
    case Unpend => s.phase.Unpending?
    case Prune => s.phase.Idle?
    case Answer(_, _) => s.phase.Idle?
    case BrokerError(_, _) => s.phase.Idle?
    case Lose => s.phase.Idle?
    case TakeSignal => s.phase.Idle? && Ready(s.halt)
    case EndSession => s.phase.Dropped?
    case EndBackoff => s.phase.Backoff?
    case CheckHead => s.phase.Head?
    case Dial => s.phase.Passed?
    case Attempt(_) => s.phase.Dialing?
    case Exit => s.phase.Exiting?
  }

  predicate Enabled(s: State, e: Step) {
    match e
    case App(a) => AppEnabled(s, a)
    case Io(i) => TaskEnabled(s, i)
    case Net(n) => CanReach(s.wire, n)
  }

  // ---------------------------------------------------------------- application sections

  /** An unknown id is an error and changes nothing. */
  function DoUnsubscribe(s: State, t: Tid, id: SubId): State {
    if Registered(s.reg, id)
    then s.(reg := DoUnregister(s.reg, id), ops := s.ops[t := UnsubForgetting(id)])
    else s
  }

  /** `unsubscribe_best_effort`: each lock is tried once; `locked` says whether it was free. */
  function DoDropHandle(s: State, t: Tid, id: SubId, locked: bool): State {
    s.(reg := if locked then DoUnregister(s.reg, id) else s.reg,
       ops := s.ops[t := DropForgetting(id)],
       released := s.released + {id})
  }

  function DoDropForget(s: State, t: Tid, id: SubId, locked: bool): State {
    s.(ledger := if locked then Forgot(s.ledger, {id}, HandleDropped) else s.ledger,
       ops := s.ops[t := DropSending(id)])
  }

  /** The UNSUBSCRIBE is queued if there is room; then the handle, and its receiver, is gone. */
  function DoDropSend(s: State, t: Tid, id: SubId, sent: bool): State {
    s.(reg := DoClose(s.reg, id),
       wire := if sent then Enqueued(s.wire, Unsubscribe(id)) else s.wire,
       ops := s.ops - {t})
  }

  /** `acknowledge` reads the ack mode and lets the registry go. */
  function ModeOf(r: Reg, id: SubId): Option<AckMode> {
    if Registered(r, id) then Some(r.subs[id].mode) else None
  }

  /** An ack for a subscription the client does not manage is cumulative. */
  predicate IsCumulative(managed: Option<AckMode>) {
    managed == None || managed == Some(Cumulative)
  }

  /** What an acknowledgement of `q[pos]` has queued. */
  function AckOf(sub: SubId, p: Pend): Out {
    Ack(sub, p.ackId, p.session, p.serial)
  }

  /** `acknowledge` settles the pending queue and decides what to send, if anything. */
  function DoSettle(s: State, t: Tid, sub: SubId, named: Token, managed: Option<AckMode>): State {
    var q := QueueOf(s.ledger.pending, sub);
    var pos := Find(q, named);
    if pos < |q| then
      s.(ledger := Settled(s.ledger, sub, pos, IsCumulative(managed)), ops := s.ops[t := Sending(AckOf(sub, q[pos]))])
    else if managed == Some(Cumulative) || managed == Some(Individual) then
      s.(ops := s.ops - {t})
    else
      s.(ops := s.ops[t := Sending(AsGiven(sub, named))])
  }

  function OutOf(op: Op): Out
    requires op.Sending? || op.Subscribing? || op.ReceiptSending?
  {
    match op
    case Sending(out) => out
    case Subscribing(id) => Subscribe(id)
    case ReceiptSending(r) => Plain(Some(r))
  }

  /** The future is dropped at an await point, or its send fails: what it had done stays done. */
  function DoCancel(s: State, t: Tid, op: Op): State {
    s.(reg := if op.Subscribing? then DoClose(s.reg, op.id) else s.reg,
       receipts := if op.ReceiptSending? then HandleClosed(s.receipts, op.receipt) else s.receipts,
       ops := s.ops - {t})
  }

  function AppNext(s: State, e: AppStep): State
    requires AppEnabled(s, e)
  {
    match e
    case Register(t, dest, mode, limit, capacity) =>
      s.(reg := DoRegister(s.reg, dest, mode, limit, capacity), ops := s.ops[t := Subscribing(s.reg.nextId)])
    case Unregister(t, id) => DoUnsubscribe(s, t, id)
    case UnsubForget(t) =>
      s.(ledger := Forgot(s.ledger, {s.ops[t].id}, Unsubscribing), ops := s.ops[t := Sending(Unsubscribe(s.ops[t].id))])
    case DropHandle(t, id, locked) => DoDropHandle(s, t, id, locked)
    case DropForget(t, locked) => DoDropForget(s, t, s.ops[t].id, locked)
    case DropSend(t, sent) => DoDropSend(s, t, s.ops[t].id, sent)
    case BeginAck(t, sub, named) => s.(ops := s.ops[t := Settling(sub, named, ModeOf(s.reg, sub))])
    case Settle(t) => DoSettle(s, t, s.ops[t].sub, s.ops[t].named, s.ops[t].managed)
    case RegisterReceipt(t) =>
      s.(receipts := Registering(s.receipts), ops := s.ops[t := ReceiptSending(s.receipts.next)])
    case Enqueue(t) => s.(wire := Enqueued(s.wire, OutOf(s.ops[t])), ops := s.ops - {t})
    case Cancel(t) => DoCancel(s, t, s.ops[t])
    case SendFailed(t) =>
      s.(receipts := Deregistered(HandleClosed(s.receipts, s.ops[t].receipt), s.ops[t].receipt), ops := s.ops - {t})
    case RawSend(out) => s.(wire := Enqueued(s.wire, out))
    case Receive(id) => s.(reg := DoReceive(s.reg, id))
    case CloseReceiver(id) => s.(reg := DoClose(s.reg, id))
    case CloseHandle(r) => s.(receipts := HandleClosed(s.receipts, r))
    case Deregister(r) => s.(receipts := Deregistered(s.receipts, r))
    case Signal => s.(halt := Signalled(s.halt))
  }

  // ---------------------------------------------------------------- I/O task sections

  function DoReplayOne(s: State, ids: seq<SubId>, ok: bool): State {
    if ids == [] then s.(phase := Idle)
    else s.(wire := if ok then s.wire.(seen := s.wire.seen + {ids[0]}) else s.wire, phase := Replaying(ids[1..]))
  }

  /** The next queued item: a stale acknowledgement is skipped, anything else written. */
  function DoTake(s: State): State
    requires Waits(s.wire)
  {
    var out := Front(s.wire);
    if !Writable(out, s.session) then s.(wire := Disposed(s.wire, Stale))
    else if out.Unsubscribe? then s.(phase := Forgetting(out.id))
    else s.(phase := Writing)
  }

  function DoWriteDone(s: State, ok: bool): State
    requires Waits(s.wire)
  {
    if ok then s.(wire := Disposed(s.wire, Handed(s.session)), phase := Idle)
    else s.(wire := Disposed(s.wire, WriteFailed(s.session)), phase := Dropped)
  }

  /** A MESSAGE comes in: drop it, or work out whether it must be recorded first. */
  function DoArrive(s: State, m: Message): State {
    var n := s.(nextSerial := s.nextSerial + 1);
    if m.sub.Some? && m.sub.value in s.reg.failedIds then n
    else if m.msgId.Some? && m.sub.Some? && Acking(s.reg, m.sub.value) then n.(phase := Recording(m, {m.sub.value}))
    else if m.msgId.Some? && m.sub.None? && AckTargets(s.reg, m) != {} then n.(phase := Collecting(m))
    else n.(phase := Delivering(m))
  }

  function Incoming(s: State, dest: Option<Dest>, sub: Option<SubId>, msgId: Option<Token>, ackId: Option<Token>)
    : Message
  {
    Message(dest, sub, msgId, ackId, s.nextSerial, s.session, s.reg.nextId)
  }

  /** Delivered by destination: who acknowledges there is looked up again. */
  function DoCollect(s: State, m: Message): State {
    var seen := m.(horizon := s.reg.nextId);
    if AckTargets(s.reg, m) == {} then s.(phase := Delivering(seen))
    else s.(phase := Recording(seen, AckTargets(s.reg, m)))
  }

  function DoRecord(s: State, m: Message, ids: set<SubId>): State {
    s.(ledger := if m.msgId.Some? then Recorded(s.ledger, ids, PendOf(m)) else s.ledger, phase := Delivering(m))
  }

  /** The delivery pass over the registry. */
  function DoDelivery(s: State, m: Message, woken: seq<SubId>, failed: seq<SubId>): State {
    if m.sub.None? && m.dest.None? then s.(phase := Idle)
    else s.(reg := DoDeliver(s.reg, m, woken), phase := Sweeping(RegisteredIds(DoDeliver(s.reg, m, woken)), failed))
  }

  function DoSweep(s: State, live: set<SubId>, failed: seq<SubId>): State {
    s.(ledger := Forgot(s.ledger, s.ledger.pending.Keys - live, Swept), phase := Failing(failed))
  }

  /** Tell the broker to stop sending for one subscription failed at its limit. */
  function DoFailOne(s: State, failed: seq<SubId>, ok: bool): State {
    if failed == [] then s.(phase := Idle)
    else s.(reg := DoFail(s.reg, failed[0]), phase := if ok then Failing(failed[1..]) else Dropped)
  }

  function DoWaken(s: State, id: SubId): State
    requires id in s.reg.subs
  {
    s.(reg := DoWake(s.reg, id),
       phase := if Registered(s.reg, id) && !Drained(s.reg.subs[id].lane).1 then Unpending(id) else Idle)
  }

  /** A place that looks for the signal: the task heads for its exit, or goes on. */
  function DoLook(s: State, next: Phase): State {
    if Ready(s.halt) then s.(halt := Looked(s.halt), phase := Exiting) else s.(phase := next)
  }

  /** The connection is gone: exit if told to, else count a new session and forget what was pending. */
  function DoEndSession(s: State): State {
    if s.halt.shuttingDown then s.(phase := Exiting)
    else if TryOk(s.halt) then s.(halt := Looked(s.halt), phase := Exiting)
    else s.(ledger := SessionEnded(s.ledger), session := s.session + 1, halt := Looked(s.halt), phase := Backoff(None))
  }

  /** One part of a reconnect attempt: each that fails has a backoff of its own. */
  function DoAttempt(s: State, stage: Stage, ok: bool): State {
    if !ok then s.(phase := Backoff(Some(stage)))
    else
      match stage
      case Connecting => s.(phase := Dialing(Greeting))
      case Greeting => s.(phase := Dialing(Handshaking))
      case Handshaking => s.(phase := Fresh(true))
  }

  function TaskNext(s: State, e: TaskStep): State
    requires TaskEnabled(s, e)
  {
    match e
    case Start => DoLook(s, Fresh(false))
    case Clean => s.(reg := DoClean(s.reg), phase := if s.phase.replay then Snapshot else Idle)
    case TakeSnapshot(ids) => s.(phase := Replaying(ids))
    case ReplayOne(ok) => DoReplayOne(s, s.phase.ids, ok)
    case Take => DoTake(s)
    case ForgetWritten =>
      s.(ledger := Forgot(s.ledger, {s.phase.id}, UnsubscribeSent),
         released := s.released + {s.phase.id},
         phase := Writing)
    case WriteDone(ok) => DoWriteDone(s, ok)
    case Arrive(dest, sub, msgId, ackId) => DoArrive(s, Incoming(s, dest, sub, msgId, ackId))
    case Collect => DoCollect(s, s.phase.m)
    case Record => DoRecord(s, s.phase.m, s.phase.targets)
    case Deliver(woken, failed) => DoDelivery(s, s.phase.m, woken, failed)
    case Sweep => DoSweep(s, s.phase.live, s.phase.failed)
    case FailOne(ok) => DoFailOne(s, s.phase.failed, ok)
    case Wake(id) => DoWaken(s, id)
    case Unpend => s.(ledger := Forgot(s.ledger, {s.phase.id}, ReceiverGone), phase := Idle)
    case Prune => s.(reg := DoPrune(s.reg))
    case Answer(r, ok) => s.(receipts := Answered(s.receipts, r, ok))
    case BrokerError(dest, message) => s.(reg := DoBrokerError(s.reg, dest, message))
    case Lose => s.(phase := Dropped)
    case EndSession => DoEndSession(s)
    case TakeSignal => s.(halt := Stopping(s.halt), phase := Dropped)
    case EndBackoff => DoLook(s, Head)
    case CheckHead => DoLook(s, Passed)
    case Dial => s.(halt := Dialled(s.halt), phase := Dialing(Connecting))
    case Attempt(ok) => DoAttempt(s, s.phase.stage, ok)
    case Exit => s.(reg := DoExit(s.reg), phase := Done(s.reg.nextId))
  }

  function Next(s: State, e: Step): State
    requires Enabled(s, e)
  {
    match e
    case App(a) => AppNext(s, a)
    case Io(i) => TaskNext(s, i)
    case Net(n) => s.(wire := Processed(s.wire, n))
  }

  /** A run: states linked by enabled steps, from the state `connect` leaves. */
  ghost predicate IsRun(states: seq<State>, steps: seq<Step>) {
    && |states| == |steps| + 1
    && states[0] == INIT
    && forall i | 0 <= i < |steps| :: Enabled(states[i], steps[i]) && states[i + 1] == Next(states[i], steps[i])
  }

  lemma RunStep(states: seq<State>, steps: seq<Step>, i: nat)
    requires IsRun(states, steps) && i < |steps|
    ensures |states| == |steps| + 1 && Enabled(states[i], steps[i]) && states[i + 1] == Next(states[i], steps[i])
  {
    hide Enabled, Next;
  }

  lemma RunSize(states: seq<State>, steps: seq<Step>)
    requires IsRun(states, steps)
    ensures |states| == |steps| + 1 && states[0] == INIT
  {
    hide Enabled, Next;
  }
}
