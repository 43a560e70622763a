/** Runs that show where the promises end, step by step. */
module Races {
  import opened Options
  import opened Lane
  import opened Entry
  import opened Types
  import opened Registry
  import opened Ledger
  import opened Wire
  import opened Halt
  import opened Client
  import opened Closing
  import opened Resubscribing

  /** Some run against an honest broker ends in `s`. */
  ghost predicate Reachable(s: State) {
    exists states: seq<State>, steps: seq<Step> :: EndsIn(states, steps, s)
  }

  ghost predicate EndsIn(states: seq<State>, steps: seq<Step>, s: State) {
    IsRun(states, steps) && Honest(states, steps) && states[|steps|] == s
  }

  lemma InitReachable()
    ensures Reachable(INIT)
  {
    var steps: seq<Step> := [];
    assert IsRun([INIT], steps) && Honest([INIT], steps);
    assert [INIT][|steps|] == INIT;
    assert EndsIn([INIT], steps, INIT);
  }

  /** One step further. */
  lemma StepReachable(s: State, e: Step, n: State)
    requires Reachable(s) && Enabled(s, e) && Next(s, e) == n
    requires e.Io? && e.i.Answer? && e.i.ok ==> AskedAndReached(s, e.i.receipt)
    ensures Reachable(n)
  {
    hide Enabled, Next, AskedAndReached, IsRun, Honest;
    var states: seq<State>, steps: seq<Step> :| EndsIn(states, steps, s);
    RunLength(states, steps);
    HonestMore(states, steps, e, n);
    assert (states + [n])[|steps + [e]|] == n;
    assert EndsIn(states + [n], steps + [e], n);
  }

  lemma RunLength(states: seq<State>, steps: seq<Step>)
    requires IsRun(states, steps)
    ensures |states| == |steps| + 1
  {
    hide Enabled, Next;
  }

  lemma TaskReachable(s: State, e: TaskStep, n: State)
    requires Reachable(s) && TaskEnabled(s, e) && TaskNext(s, e) == n && !e.Answer?
    ensures Reachable(n)
  {
    hide TaskEnabled, TaskNext, Reachable;
    StepReachable(s, Io(e), n);
  }

  lemma AppReachable(s: State, e: AppStep, n: State)
    requires Reachable(s) && AppEnabled(s, e) && AppNext(s, e) == n
    ensures Reachable(n)
  {
    hide AppEnabled, AppNext, Reachable;
    StepReachable(s, App(e), n);
  }

  /** The first connection is up and idle. */
  const UP: State := INIT.(phase := Idle)

  lemma UpReachable()
    ensures Reachable(UP)
  {
    InitReachable();
    var first := INIT.(phase := Fresh(false));
    TaskReachable(INIT, Start, first);
    assert Pruned([], DoClean(EMPTY).subs) == [];
    assert DoClean(EMPTY).subs == map[];
    TaskReachable(first, Clean, UP);
  }

  lemma Loses(s: State)
    requires Reachable(s) && s.phase == Idle
    ensures Reachable(s.(phase := Dropped))
  {
    hide Reachable;
    TaskReachable(s, Lose, s.(phase := Dropped));
  }

  lemma Signals(s: State)
    requires Reachable(s)
    ensures Reachable(s.(halt := Signalled(s.halt)))
  {
    hide Reachable;
    AppReachable(s, Signal, s.(halt := Signalled(s.halt)));
  }

  // ---------------------------------------------------------------- delivered but never recorded

  const LATE: Message := Message(Some(7), None, Some(5), None, 0, 0, 1)

  const NEWCOMER: Sub := Sub(7, Cumulative, NewLane(10, 10), true, Running, [], [])

  const SERVED: Sub := NEWCOMER.(lane := NEWCOMER.lane.(channel := [LATE]), accepted := [LATE])

  /** The registry after one subscription, and after it was served. */
  const ONE: Reg := EMPTY.(nextId := 2, subs := map[1 := NEWCOMER])

  /**
   * A MESSAGE routed by destination: a subscription added after the client
   * looked up whom to record it for, and before the delivery pass, gets a frame
   * that is not in the book; acknowledging it then queues nothing.
   */
  lemma UnrecordedDelivery()
    ensures exists s ::
              && Reachable(s)
              && Registered(s.reg, 1) && s.reg.subs[1] == SERVED
              && Key(1, LATE.serial) !in s.ledger.book
              && 1 in s.ops && s.ops[1] == Settling(1, 5, Some(Cumulative))
              && Next(s, App(Settle(1))) == s.(ops := s.ops - {1})
  {
    NewcomerLate();
    var s2 := UP.(phase := Delivering(LATE), nextSerial := 1, reg := ONE, ops := map[0 := Subscribing(1)]);
    OneOffer();
    var s3 := s2.(reg := ONE.(subs := map[1 := SERVED]), phase := Sweeping({1}, []));
    assert RegisteredIds(s3.reg) == {1};
    TaskReachable(s2, Deliver([], []), s3);

    var s4 := s3.(ops := map[0 := Subscribing(1), 1 := Settling(1, 5, Some(Cumulative))]);
    AppReachable(s3, BeginAck(1, 1, 5), s4);
    assert Next(s4, App(Settle(1))) == s4.(ops := s4.ops - {1});
  }

  /** It registers with the MESSAGE already on its way to the delivery pass. */
  lemma NewcomerLate()
    ensures Reachable(UP.(phase := Delivering(LATE), nextSerial := 1, reg := ONE, ops := map[0 := Subscribing(1)]))
  {
    UpReachable();
    assert AckTargets(UP.reg, LATE) == {};
    var s1 := UP.(phase := Delivering(LATE), nextSerial := 1);
    TaskReachable(UP, Arrive(Some(7), None, Some(5), None), s1);
    AppReachable(s1, Register(0, 7, Cumulative, 10, 10), s1.(reg := ONE, ops := map[0 := Subscribing(1)]));
  }

  lemma OneOffer()
    ensures AfterOffer(NEWCOMER, LATE) == SERVED
    ensures DoDeliver(ONE, LATE, []) == ONE.(subs := map[1 := SERVED])
    ensures Woken(ONE, LATE) == {} && Overrun(ONE, LATE) == {}
  {
    var lane := NEWCOMER.lane;
    assert Drained(lane) == (lane, true);
    assert [] + [LATE] == [LATE];
    assert Offered(lane, LATE) == (lane.(channel := [LATE]), Taken);
    assert AfterOffer(NEWCOMER, LATE) == SERVED;
    hide AfterOffer, Offered, Drained, NewLane;
    assert DoDeliver(ONE, LATE, []).parked == [];
    assert DoDeliver(ONE, LATE, []).subs == map[1 := SERVED];
  }

  // ---------------------------------------------------------------- a reconnect

  /** What a reconnect with nothing to replay makes of a state. */
  function Reconnected(s: State): State {
    s.(reg := DoClean(s.reg), ledger := SessionEnded(s.ledger), session := s.session + 1,
       halt := Dialled(s.halt), phase := Idle)
  }

  lemma PassedReachable(s: State)
    requires Reachable(s) && s.phase == Dropped && !s.halt.shuttingDown && s.halt.unread == 0
    ensures Reachable(s.(ledger := SessionEnded(s.ledger), session := s.session + 1, phase := Passed))
  {
    hide SessionEnded, Reachable;
    var s1 := s.(ledger := SessionEnded(s.ledger), session := s.session + 1, phase := Backoff(None));
    TaskReachable(s, EndSession, s1);
    BackoffPassed(s1);
  }

  lemma BackoffPassed(s: State)
    requires Reachable(s) && s.phase == Backoff(None) && s.halt.unread == 0
    ensures Reachable(s.(phase := Passed))
  {
    hide Reachable;
    var s1 := s.(phase := Head);
    TaskReachable(s, EndBackoff, s1);
    TaskReachable(s1, CheckHead, s.(phase := Passed));
  }

  lemma ReconnectReachable(s: State)
    requires Reachable(s) && s.phase == Dropped && !s.halt.shuttingDown && s.halt.unread == 0
    requires RegisteredIds(DoClean(s.reg)) == {}
    ensures Reachable(Reconnected(s))
  {
    hide SessionEnded, DoClean, RegisteredIds, Reachable;
    PassedReachable(s);
    var s1 := s.(ledger := SessionEnded(s.ledger), session := s.session + 1, phase := Passed);
    DialReachable(s1);
    RejoinReachable(s1.(halt := Dialled(s1.halt), phase := Fresh(true)));
  }

  lemma DialReachable(s: State)
    requires Reachable(s) && s.phase == Passed
    ensures Reachable(s.(halt := Dialled(s.halt), phase := Fresh(true)))
  {
    var s1 := s.(halt := Dialled(s.halt), phase := Dialing(Connecting));
    TaskReachable(s, Dial, s1);
    var s2 := s1.(phase := Dialing(Greeting));
    TaskReachable(s1, Attempt(true), s2);
    var s3 := s1.(phase := Dialing(Handshaking));
    TaskReachable(s2, Attempt(true), s3);
    TaskReachable(s3, Attempt(true), s1.(phase := Fresh(true)));
  }

  lemma RejoinReachable(s: State)
    requires Reachable(s) && s.phase == Fresh(true) && RegisteredIds(DoClean(s.reg)) == {}
    ensures Reachable(s.(reg := DoClean(s.reg), phase := Idle))
  {
    hide DoClean, RegisteredIds;
    var s1 := s.(reg := DoClean(s.reg), phase := Snapshot);
    TaskReachable(s, Clean, s1);
    var s2 := s1.(phase := Replaying([]));
    TaskReachable(s1, TakeSnapshot([]), s2);
    TaskReachable(s2, ReplayOne(true), s1.(phase := Idle));
  }

  lemma NothingToClean()
    ensures DoClean(EMPTY) == EMPTY && RegisteredIds(EMPTY) == {} && SessionEnded(BLANK) == BLANK
  {
    assert DoClean(EMPTY).subs == map[];
    assert Pruned([], map[]) == [];
  }

  // ---------------------------------------------------------------- lost before a confirmed close

  /**
   * A frame that was handed over, or whose write failed, as a connection
   * dropped is not sent again: the broker confirms a later DISCONNECT without
   * ever having seen it.
   */
  lemma LostBeforeConfirmedClose(handed: bool)
    ensures exists s ::
              && Reachable(s)
              && s.wire.queued == [Plain(None), Plain(Some(1))]
              && s.wire.disposed == [if handed then Handed(0) else WriteFailed(0), Handed(1)]
              && s.wire.reached == {1}
              && s.receipts.answers == map[1 := true]
  {
    UpReachable();
    var d := if handed then Handed(0) else WriteFailed(0);
    WrittenThenDropped(UP, handed);
    var down := UP.(wire := Wire([Plain(None)], [d], {}, {}), phase := Dropped);
    NothingToClean();
    ReconnectReachable(down);
    ReceiptQueued(Reconnected(down), d);
  }

  /** The connection drops under the first frame, or right after it. */
  lemma WrittenThenDropped(s: State, handed: bool)
    requires Reachable(s) && s == UP
    ensures Reachable(
              s.(wire := Wire([Plain(None)], [if handed then Handed(0) else WriteFailed(0)], {}, {}), phase := Dropped))
  {
    hide Reachable;
    var s1 := UP.(wire := Wire([Plain(None)], [], {}, {}));
    AppReachable(UP, RawSend(Plain(None)), s1);
    var s2 := s1.(phase := Writing);
    TaskReachable(s1, Take, s2);
    FirstWritten(s2, handed);
  }

  lemma FirstWritten(s: State, handed: bool)
    requires Reachable(s) && s == UP.(wire := Wire([Plain(None)], [], {}, {}), phase := Writing)
    ensures Reachable(
              s.(wire := Wire([Plain(None)], [if handed then Handed(0) else WriteFailed(0)], {}, {}), phase := Dropped))
  {
    hide Reachable;
    if handed {
      var s1 := s.(wire := Wire([Plain(None)], [Handed(0)], {}, {}), phase := Idle);
      TaskReachable(s, WriteDone(true), s1);
      Loses(s1);
    } else {
      TaskReachable(s, WriteDone(false), s.(wire := Wire([Plain(None)], [WriteFailed(0)], {}, {}), phase := Dropped));
    }
  }

  /** A DISCONNECT asking for a receipt goes out on the new connection. */
  lemma ReceiptQueued(s: State, d: Disposal)
    requires Reachable(s) && s.phase == Idle && s.session == 1 && s.ops == map[] && s.receipts == NO_RECEIPTS
    requires s.wire == Wire([Plain(None)], [d], {}, {}) && (d == Handed(0) || d == WriteFailed(0))
    ensures exists n ::
              && Reachable(n)
              && n.wire.queued == [Plain(None), Plain(Some(1))] && n.wire.disposed == [d, Handed(1)]
              && n.wire.reached == {1} && n.receipts.answers == map[1 := true]
  {
    var s1 := s.(receipts := Registering(NO_RECEIPTS), ops := map[0 := ReceiptSending(1)]);
    AppReachable(s, RegisterReceipt(0), s1);
    var queued := [Plain(None), Plain(Some(1))];
    var s2 := s1.(wire := Wire(queued, [d], {}, {}), ops := map[]);
    AppReachable(s1, Enqueue(0), s2);
    var s3 := s2.(phase := Writing);
    TaskReachable(s2, Take, s3);
    Confirmed(s3, d, queued);
  }

  lemma Confirmed(s3: State, d: Disposal, queued: seq<Out>)
    requires Reachable(s3) && s3.phase == Writing && s3.session == 1 && s3.receipts == Registering(NO_RECEIPTS)
    requires queued == [Plain(None), Plain(Some(1))] && s3.wire == Wire(queued, [d], {}, {})
    requires d == Handed(0) || d == WriteFailed(0)
    ensures exists n ::
              && Reachable(n)
              && n.wire.queued == queued && n.wire.disposed == [d, Handed(1)]
              && n.wire.reached == {1} && n.receipts.answers == map[1 := true]
  {
    var s4 := s3.(wire := Wire(queued, [d, Handed(1)], {}, {}), phase := Idle);
    TaskReachable(s3, WriteDone(true), s4);
    AnswerReachable(s4, d, queued);
  }

  lemma AnswerReachable(s: State, d: Disposal, queued: seq<Out>)
    requires Reachable(s) && s.phase == Idle && s.receipts == Registering(NO_RECEIPTS)
    requires queued == [Plain(None), Plain(Some(1))] && s.wire == Wire(queued, [d, Handed(1)], {}, {})
    requires d == Handed(0) || d == WriteFailed(0)
    ensures exists n ::
              && Reachable(n)
              && n.wire.queued == queued && n.wire.disposed == [d, Handed(1)]
              && n.wire.reached == {1} && n.receipts.answers == map[1 := true]
  {
    hide Reachable;
    var s1 := s.(wire := Wire(queued, [d, Handed(1)], {}, {1}));
    StepReachable(s, Net(1), s1);
    assert AskedAndReached(s1, 1) by {
      assert 1 in s1.wire.reached && Asks(s1.wire.queued[1], 1);
    }
    var s2 := s1.(receipts := Answered(s1.receipts, 1, true));
    StepReachable(s1, Io(Answer(1, true)), s2);
    assert s2.receipts.answers == map[1 := true];
  }

  /**
   * A caller's frame with a receipt id the library makes later: the RECEIPT it
   * gets confirms the frame that has the id by right, still in the queue.
   */
  lemma ConfirmedByAnother()
    ensures exists s ::
              && Reachable(s)
              && s.wire.queued == [Own(1), Plain(Some(1))] && s.wire.disposed == [Handed(0)]
              && s.wire.reached == {0} && s.receipts.answers == map[1 := true]
  {
    hide Reachable;
    UpReachable();
    var s1 := UP.(wire := Wire([Own(1)], [], {}, {}));
    AppReachable(UP, RawSend(Own(1)), s1);
    var s2 := s1.(phase := Writing);
    TaskReachable(s1, Take, s2);
    var s3 := UP.(wire := Wire([Own(1)], [Handed(0)], {}, {}));
    TaskReachable(s2, WriteDone(true), s3);
    var s4 := UP.(wire := Wire([Own(1)], [Handed(0)], {}, {0}));
    StepReachable(s3, Net(0), s4);
    ReceiptUnderway(s4);
  }

  lemma ReceiptUnderway(s: State)
    requires Reachable(s) && s == UP.(wire := Wire([Own(1)], [Handed(0)], {}, {0}))
    ensures exists n ::
              && Reachable(n)
              && n.wire.queued == [Own(1), Plain(Some(1))] && n.wire.disposed == [Handed(0)]
              && n.wire.reached == {0} && n.receipts.answers == map[1 := true]
  {
    hide Reachable;
    var s1 := s.(receipts := Registering(NO_RECEIPTS), ops := map[0 := ReceiptSending(1)]);
    AppReachable(s, RegisterReceipt(0), s1);
    var wire := Wire([Own(1), Plain(Some(1))], [Handed(0)], {}, {0});
    var s2 := s1.(wire := wire, ops := map[]);
    AppReachable(s1, Enqueue(0), s2);
    assert AskedAndReached(s2, 1) by {
      assert 0 in s2.wire.reached && Asks(s2.wire.queued[0], 1);
    }
    var s3 := s2.(receipts := Answered(s2.receipts, 1, true));
    StepReachable(s2, Io(Answer(1, true)), s3);
    assert s3.receipts.answers == map[1 := true];
  }

  // ---------------------------------------------------------------- the shutdown signal

  /** A signal sent behind the check at the loop head is followed by one connect attempt. */
  lemma DialBehindSignal()
    ensures exists s ::
              && Reachable(s) && s.halt.sent == 1 && s.halt.dials == 0
              && Enabled(s, Io(Dial)) && Next(s, Io(Dial)).halt.dials == 1
  {
    hide Reachable;
    UpReachable();
    NothingToClean();
    Loses(UP);
    PassedReachable(UP.(phase := Dropped));
    var s := UP.(session := 1, phase := Passed);
    Signals(s);
  }

  /** With two signals unread, a dropped connection is counted before the task exits. */
  lemma LagCountsSession()
    ensures exists s ::
              && Reachable(s) && s.halt.sent == 2 && s.session == 0
              && Enabled(s, Io(EndSession)) && Next(s, Io(EndSession)).session == 1
  {
    hide Reachable;
    UpReachable();
    Signals(UP);
    var s := UP.(halt := Signalled(RUNNING));
    Signals(s);
    Loses(s.(halt := Signalled(s.halt)));
  }

  // ---------------------------------------------------------------- a lost replay

  /**
   * A run against an honest broker: a subscription is registered, and the
   * connection in use was not handed a SUBSCRIBE for it, neither from the queue
   * nor by the replay, which failed; and none is to come.
   */
  ghost predicate LosesReplay(states: seq<State>, steps: seq<Step>, i: nat, id: SubId)
    requires i <= |steps| && |states| == |steps| + 1
  {
    && IsRun(states, steps) && Honest(states, steps)
    && Registered(states[i].reg, id) && states[i].phase == Idle
    && !Placed(states[i], id) && !Replayed(states, steps, i, id, true) && Replayed(states, steps, i, id, false)
  }

  /**
   * A subscription whose replayed SUBSCRIBE cannot be written stays registered,
   * on a connection that was not handed one and for which none is to come.
   */
  lemma ReplayLost()
    ensures exists states: seq<State>, steps: seq<Step>, i: nat ::
              i <= |steps| && |states| == |steps| + 1 && LosesReplay(states, steps, i, 1)
  {
    hide Reachable, LosesReplay;
    SubscribeWritten();
    NothingToClean();
    var s := UP.(reg := ONE, wire := Wire([Subscribe(1)], [Handed(0)], {1}, {}));
    Loses(s);
    PassedReachable(s.(phase := Dropped));
    var s1 := s.(session := 1, phase := Passed);
    DialReachable(s1);
    var s2 := s1.(halt := Dialled(s1.halt), phase := Fresh(true));
    ReplayBegins(s2);
    ReplayFails(s2.(reg := DoClean(ONE), phase := Replaying([1])));
  }

  /** A subscription is added and its SUBSCRIBE written. */
  lemma SubscribeWritten()
    ensures Reachable(UP.(reg := ONE, wire := Wire([Subscribe(1)], [Handed(0)], {1}, {})))
  {
    hide Reachable;
    UpReachable();
    var s1 := UP.(reg := ONE, ops := map[0 := Subscribing(1)]);
    AppReachable(UP, Register(0, 7, Cumulative, 10, 10), s1);
    var s2 := UP.(reg := ONE, wire := Wire([Subscribe(1)], [], {}, {}));
    AppReachable(s1, Enqueue(0), s2);
    TaskReachable(s2, Take, s2.(phase := Writing));
    var s3 := s2.(wire := Wire([Subscribe(1)], [Handed(0)], {1}, {}));
    TaskReachable(s2.(phase := Writing), WriteDone(true), s3);
  }

  lemma ReplayBegins(s: State)
    requires Reachable(s) && s.phase == Fresh(true) && s.reg == ONE
    ensures Reachable(s.(reg := DoClean(ONE), phase := Replaying([1])))
  {
    hide Reachable;
    OneStays();
    hide DoClean;
    var s1 := s.(reg := DoClean(ONE), phase := Snapshot);
    TaskReachable(s, Clean, s1);
    TaskReachable(s1, TakeSnapshot([1]), s1.(phase := Replaying([1])));
  }

  /** Two steps more: the one write fails, and the replay is over. */
  lemma ReplayFails(s: State)
    requires Reachable(s) && s.phase == Replaying([1]) && s.reg == DoClean(ONE) && s.session == 1 && s.ops == map[]
    requires s.wire == Wire([Subscribe(1)], [Handed(0)], {1}, {})
    ensures exists states: seq<State>, steps: seq<Step>, i: nat ::
              i <= |steps| && |states| == |steps| + 1 && LosesReplay(states, steps, i, 1)
  {
    hide IsRun, Honest, Enabled, Next, DoClean, LosesReplay;
    var states: seq<State>, steps: seq<Step> :| EndsIn(states, steps, s);
    RunLength(states, steps);
    var s1, s2 := s.(phase := Replaying([])), s.(phase := Idle);
    ReplaySteps(s);
    HonestMore(states, steps, Io(ReplayOne(false)), s1);
    HonestMore(states + [s1], steps + [Io(ReplayOne(false))], Io(ReplayOne(true)), s2);
    var more, after := states + [s1] + [s2], steps + [Io(ReplayOne(false))] + [Io(ReplayOne(true))];
    assert Listed(s.phase.ids, 1) by { assert s.phase.ids[0] == 1; }
    NotYetReplayed(states, steps, |steps|, 1, true);
    LostReplay(states, steps, s, more, after);
    assert LosesReplay(more, after, |steps| + 2, 1);
  }

  lemma ReplaySteps(s: State)
    requires s.phase == Replaying([1])
    ensures Enabled(s, Io(ReplayOne(false))) && Next(s, Io(ReplayOne(false))) == s.(phase := Replaying([]))
    ensures var n := s.(phase := Replaying([]));
            Enabled(n, Io(ReplayOne(true))) && Next(n, Io(ReplayOne(true))) == s.(phase := Idle)
  {
    assert [1][1..] == [];
  }

  lemma LostReplay(states: seq<State>, steps: seq<Step>, s: State, more: seq<State>, after: seq<Step>)
    requires |states| == |steps| + 1 && states[|steps|] == s && !Replayed(states, steps, |steps|, 1, true)
    requires s.phase == Replaying([1]) && s.reg == DoClean(ONE) && s.session == 1 && s.ops == map[]
    requires s.wire == Wire([Subscribe(1)], [Handed(0)], {1}, {})
    requires more == states + [s.(phase := Replaying([]))] + [s.(phase := Idle)]
    requires after == steps + [Io(ReplayOne(false))] + [Io(ReplayOne(true))]
    requires IsRun(more, after) && Honest(more, after)
    ensures LosesReplay(more, after, |steps| + 2, 1)
  {
    hide IsRun, Honest, DoClean;
    OneStays();
    var n := |steps|;
    assert Replays(more[n], after[n], 1) && more[n] == s;
    assert Replayed(more, after, n + 2, 1, false);
    assert more[n + 2] == s.(phase := Idle);
    assert forall k | 0 <= k < n :: more[k] == states[k] && after[k] == steps[k];
    assert after[n + 1] == Io(ReplayOne(true)) && more[n + 1].phase == Replaying([]);
  }

  lemma OneStays()
    ensures Registered(DoClean(ONE), 1) && RegisteredIds(DoClean(ONE)) == {1}
  {
    hide Pruned, Discarded, NewLane;
  }

  // ---------------------------------------------------------------- acknowledging after the end

  const TOLD: Message := Message(None, Some(1), Some(5), None, 0, 0, 2)

  const PEND: Pend := Pend(5, 5, 0, 0)

  const TAKER: Sub := NEWCOMER.(lane := NEWCOMER.lane.(channel := [TOLD]), accepted := [TOLD])

  /** One subscription, and one message for it, delivered. */
  const DELIVERED: State := UP.(
    reg := ONE.(subs := map[1 := TAKER]), ledger := Recorded(BLANK, {1}, PEND),
    wire := Wire([Subscribe(1)], [Handed(0)], {1}, {}), nextSerial := 1)

  lemma DeliveredReachable()
    ensures Reachable(DELIVERED)
  {
    hide Reachable;
    SubscribeWritten();
    var s1 := UP.(reg := ONE, wire := Wire([Subscribe(1)], [Handed(0)], {1}, {}));
    var s2 := s1.(phase := Recording(TOLD, {1}), nextSerial := 1);
    TaskReachable(s1, Arrive(None, Some(1), Some(5), None), s2);
    var s3 := s2.(ledger := Recorded(BLANK, {1}, PEND), phase := Delivering(TOLD));
    TaskReachable(s2, Record, s3);
    ToldDelivered(s3);
  }

  lemma ToldDelivered(s: State)
    requires Reachable(s) && s == DELIVERED.(reg := ONE, phase := Delivering(TOLD))
    ensures Reachable(DELIVERED)
  {
    hide Reachable, Recorded;
    ToldOffer();
    var s1 := DELIVERED.(phase := Sweeping({1}, []));
    assert RegisteredIds(s1.reg) == {1};
    TaskReachable(s, Deliver([], []), s1);
    ToldSwept(s1);
  }

  lemma ToldSwept(s: State)
    requires Reachable(s) && s == DELIVERED.(phase := Sweeping({1}, []))
    ensures Reachable(DELIVERED)
  {
    hide Reachable, Recorded;
    var s1 := DELIVERED.(phase := Failing([]));
    NothingSwept();
    TaskReachable(s, Sweep, s1);
    TaskReachable(s1, FailOne(true), DELIVERED);
  }

  lemma ToldOffer()
    ensures AfterOffer(NEWCOMER, TOLD) == TAKER
    ensures DoDeliver(ONE, TOLD, []) == ONE.(subs := map[1 := TAKER])
    ensures Woken(ONE, TOLD) == {} && Overrun(ONE, TOLD) == {}
  {
    var lane := NEWCOMER.lane;
    assert Drained(lane) == (lane, true);
    assert [] + [TOLD] == [TOLD];
    assert Offered(lane, TOLD) == (lane.(channel := [TOLD]), Taken);
    assert AfterOffer(NEWCOMER, TOLD) == TAKER;
    hide AfterOffer, Offered, Drained, NewLane;
    assert DoDeliver(ONE, TOLD, []).parked == [];
    assert DoDeliver(ONE, TOLD, []).subs == map[1 := TAKER];
  }

  lemma NothingSwept()
    ensures var l := Recorded(BLANK, {1}, PEND); Forgot(l, l.pending.Keys - {1}, Swept) == l
  {
    var l := Recorded(BLANK, {1}, PEND);
    assert l.pending.Keys == {1};
    assert l.pending.Keys - {1} == {};
    hide Recorded;
    assert Forgot(l, {}, Swept).pending == l.pending;
    assert Forgot(l, {}, Swept).book == l.book;
  }

  /** The delivery after its first acknowledgement. */
  const SETTLED: Ledger := Settled(Recorded(BLANK, {1}, PEND), 1, 0, true)

  lemma PendOne()
    ensures QueueOf(Recorded(BLANK, {1}, PEND).pending, 1) == [PEND]
    ensures Find([PEND], 5) == 0 && Find([], 5) == 0
    ensures QueueOf(SETTLED.pending, 1) == []
    ensures Key(1, 0) in SETTLED.book && SETTLED.book[Key(1, 0)] == Line(PEND, Named)
  {
    assert Key(1, 0) in Recorded(BLANK, {1}, PEND).book by {
      RecordOutstands(BLANK, {1}, PEND, 1);
    }
    assert [PEND][1..] == [];
  }

  /** A whole acknowledging call, from a task that is in no other. */
  lemma AckReachable(s: State, t: Tid, sub: SubId, named: Token, out: Out)
    requires Reachable(s) && t !in s.ops
    requires DoSettle(s, t, sub, named, ModeOf(s.reg, sub)).ops == s.ops[t := Sending(out)]
    ensures var ledger := DoSettle(s, t, sub, named, ModeOf(s.reg, sub)).ledger;
            Reachable(s.(ledger := ledger, wire := Enqueued(s.wire, out)))
  {
    hide Reachable, ModeOf, Settled, Find;
    var s1 := s.(ops := s.ops[t := Settling(sub, named, ModeOf(s.reg, sub))]);
    AppReachable(s, BeginAck(t, sub, named), s1);
    var s2 := DoSettle(s, t, sub, named, ModeOf(s.reg, sub));
    assert DoSettle(s1, t, sub, named, ModeOf(s.reg, sub)) == s2;
    AppReachable(s1, Settle(t), s2);
    hide DoSettle;
    assert s2.ops - {t} == s.ops;
    AppReachable(s2, Enqueue(t), s.(ledger := s2.ledger, wire := Enqueued(s.wire, out)));
  }

  /**
   * A delivery is acknowledged, the subscription ends, and it is acknowledged
   * again: the second call finds nothing, does not manage the subscription any
   * more, and queues a second ACK for it with the id as given.
   */
  lemma AckedTwice()
    ensures exists s ::
              && Reachable(s) && s.phase == Idle && s.session == 0
              && s.wire == Wire([Subscribe(1), Ack(1, 5, 0, 0), AsGiven(1, 5)], [Handed(0)], {1}, {})
              && s.ledger == SETTLED && RegisteredIds(DoClean(s.reg)) == {}
              && s.halt == RUNNING
  {
    hide Reachable;
    DeliveredReachable();
    PendOne();
    hide Recorded, Settled, Find;
    AckReachable(DELIVERED, 1, 1, 5, Ack(1, 5, 0, 0));
    assert [Subscribe(1)] + [Ack(1, 5, 0, 0)] == [Subscribe(1), Ack(1, 5, 0, 0)];
    var s3 := DELIVERED.(ledger := SETTLED, wire := Wire([Subscribe(1), Ack(1, 5, 0, 0)], [Handed(0)], {1}, {}));
    AckedAgain(s3);
  }

  lemma AckedAgain(s: State)
    requires Reachable(s)
    requires s == DELIVERED.(ledger := SETTLED, wire := Wire([Subscribe(1), Ack(1, 5, 0, 0)], [Handed(0)], {1}, {}))
    ensures exists n ::
              && Reachable(n) && n.phase == Idle && n.session == 0
              && n.wire == Wire([Subscribe(1), Ack(1, 5, 0, 0), AsGiven(1, 5)], [Handed(0)], {1}, {})
              && n.ledger == SETTLED && RegisteredIds(DoClean(n.reg)) == {}
              && n.halt == RUNNING
  {
    hide Reachable;
    PendOne();
    hide Recorded, Settled, Find, DoUnregister;
    EndedReg();
    var reg := DoUnregister(s.reg, 1);
    var ops0 := s.ops[2 := UnsubForgetting(1)];
    var s1 := s.(reg := reg, ops := ops0);
    AppReachable(s, Unregister(2, 1), s1);
    assert [Subscribe(1), Ack(1, 5, 0, 0)] + [AsGiven(1, 5)] == [Subscribe(1), Ack(1, 5, 0, 0), AsGiven(1, 5)];
    AckReachable(s1, 1, 1, 5, AsGiven(1, 5));
  }

  lemma EndedReg()
    ensures Registered(DELIVERED.reg, 1)
    ensures !Registered(DoUnregister(DELIVERED.reg, 1), 1)
    ensures RegisteredIds(DoClean(DoUnregister(DELIVERED.reg, 1))) == {}
  {
    hide Pruned, Discarded, NewLane;
  }

  /**
   * And it outlives its session: after a reconnect the managed acknowledgement
   * is skipped as stale, and the one sent as given is written, naming a message
   * of the session before.
   */
  lemma GivenOutlivesSession()
    ensures exists s ::
              && Reachable(s)
              && s.wire.queued == [Subscribe(1), Ack(1, 5, 0, 0), AsGiven(1, 5)]
              && s.wire.disposed == [Handed(0), Stale, Handed(1)]
              && Key(1, 0) in s.ledger.book && s.ledger.book[Key(1, 0)] == Line(PEND, Named)
  {
    hide Reachable;
    AckedTwice();
    var s :| Reachable(s) && s.phase == Idle && s.session == 0
      && s.wire == Wire([Subscribe(1), Ack(1, 5, 0, 0), AsGiven(1, 5)], [Handed(0)], {1}, {})
      && s.ledger == SETTLED && RegisteredIds(DoClean(s.reg)) == {} && s.halt == RUNNING;
    hide DoClean, RegisteredIds;
    var s1 := s.(phase := Dropped);
    TaskReachable(s, Lose, s1);
    ReconnectReachable(s1);
    PendOne();
    NamedSurvives();
    GivenWritten(Reconnected(s1));
  }

  lemma NamedSurvives()
    ensures Key(1, 0) in SessionEnded(SETTLED).book && SessionEnded(SETTLED).book[Key(1, 0)] == Line(PEND, Named)
  {
    PendOne();
    hide Settled, Recorded;
  }

  lemma GivenWritten(s: State)
    requires Reachable(s) && s.phase == Idle && s.session == 1
    requires s.wire == Wire([Subscribe(1), Ack(1, 5, 0, 0), AsGiven(1, 5)], [Handed(0)], {1}, {})
    ensures exists n :: && Reachable(n) && n.ledger == s.ledger
                        && n.wire.queued == s.wire.queued && n.wire.disposed == [Handed(0), Stale, Handed(1)]
  {
    hide Reachable;
    var queued := s.wire.queued;
    var s1 := s.(wire := Wire(queued, [Handed(0), Stale], {1}, {}));
    TaskReachable(s, Take, s1);
    var s2 := s1.(phase := Writing);
    TaskReachable(s1, Take, s2);
    assert [Handed(0), Stale] + [Handed(1)] == [Handed(0), Stale, Handed(1)];
    TaskReachable(s2, WriteDone(true), s1.(wire := Wire(queued, [Handed(0), Stale, Handed(1)], {1}, {})));
  }
}
