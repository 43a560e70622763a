/** Receipts, and what a confirmed close proves, over every run. */
module Closing {
  import opened Options
  import opened Types
  import opened Registry
  import opened Ledger
  import opened Wire
  import opened Client
  import opened Invariant
  import opened Delivery
  import opened Acks
  import opened Runs

  // ---------------------------------------------------------------- receipts

  /** A receipt's id is in the table, answered, or given up, from before its frame is queued. */
  lemma ReceiptNeverLost(states: seq<State>, steps: seq<Step>, i: nat, n: nat)
    requires IsRun(states, steps) && i < |states| && n < |states[i].wire.queued|
    requires states[i].wire.queued[n].Plain? && states[i].wire.queued[n].receipt.Some?
    ensures Known(states[i].receipts, states[i].wire.queued[n].receipt.value)
  {
    RunSound(states, steps, i);
    hide IsRun, RegGood, PhaseGood, LedgerPart, WireGood, ReceiptsGood, Delivered, NamedOnce, CursorGood;
    assert OutGood(states[i], states[i].wire.queued[n]);
  }

  /** A handle gets one answer, kept for whenever it is waited for, and only while its id was in the table. */
  lemma OneAnswer(states: seq<State>, steps: seq<Step>, i: nat, j: nat, id: ReceiptId)
    requires IsRun(states, steps) && i <= j < |states| && id in states[i].receipts.answers
    ensures id in states[j].receipts.answers && states[j].receipts.answers[id] == states[i].receipts.answers[id]
    ensures id !in states[j].receipts.awaiting
  {
    RunFollows(states, steps, i, j);
    RunSound(states, steps, j);
    hide IsRun, RegGood, PhaseGood, LedgerPart, WireGood, OpsPart;
    hide Delivered, NamedOnce, CursorGood, RegEvolves, BookKept, WireKept;
  }

  /** No two frames ever queued ask for the same receipt that the library made the id of. */
  lemma OneFramePerReceipt(states: seq<State>, steps: seq<Step>, i: nat, a: nat, b: nat)
    requires IsRun(states, steps) && i < |states|
    requires a < b < |states[i].wire.queued|
    requires states[i].wire.queued[a].Plain? && states[i].wire.queued[a].receipt.Some?
    requires states[i].wire.queued[b].Plain?
    ensures states[i].wire.queued[a].receipt != states[i].wire.queued[b].receipt
  {
    RunSound(states, steps, i);
    hide IsRun, Good, Delivered, CursorGood, WritingClean, CurrentPart;
    assert OutMark(states[i].wire.queued[a]) != OutMark(states[i].wire.queued[b]);
  }

  // ---------------------------------------------------------------- the log

  /**
   * The outbound queue is first in, first out. When a frame (a DISCONNECT,
   * say) was handed to the connection of session `s`, everything queued before
   * it had been handed to a connection, that of `s` or an earlier one, or was a
   * stale acknowledgement, or a write that failed as a session before `s` ended.
   */
  lemma CloseDrains(states: seq<State>, steps: seq<Step>, i: nat, n: nat, earlier: nat)
    requires IsRun(states, steps) && i < |states|
    requires earlier < n < |states[i].wire.disposed| <= |states[i].wire.queued|
    requires states[i].wire.disposed[n].Handed?
    ensures var session := states[i].wire.disposed[n].session;
            match states[i].wire.disposed[earlier]
            case Handed(then_) => then_ <= session
            case Stale => states[i].wire.queued[earlier].Ack?
            case WriteFailed(then_) => then_ < session
  {
    RunSound(states, steps, i);
    var w := states[i].wire;
    assert InTurn(w.disposed[earlier], w.disposed[n]);
    assert DisposalGood(w.queued[earlier], w.disposed[earlier], states[i].session);
  }

  /** A write that failed is the last of its session. */
  lemma FailedWriteIsLast(states: seq<State>, steps: seq<Step>, i: nat, a: nat, b: nat)
    requires IsRun(states, steps) && i < |states|
    requires a < b < |states[i].wire.disposed|
    requires states[i].wire.disposed[a].WriteFailed? && !states[i].wire.disposed[b].Stale?
    ensures states[i].wire.disposed[a].session < states[i].wire.disposed[b].session
  {
    RunSound(states, steps, i);
    var w := states[i].wire;
    assert InTurn(w.disposed[a], w.disposed[b]);
  }

  // ---------------------------------------------------------------- what reached the broker

  /** The broker sends a RECEIPT only for a frame it has processed (section "RECEIPT" of STOMP 1.2). */
  ghost predicate Honest(states: seq<State>, steps: seq<Step>)
    requires |states| == |steps| + 1
  {
    forall j, r: ReceiptId | 0 <= j < |steps| && steps[j] == Io(Answer(r, true)) :: AskedAndReached(states[j], r)
  }

  /** The broker answers this item with a RECEIPT that carries this id. */
  predicate Asks(out: Out, r: ReceiptId) {
    out == Plain(Some(r)) || out == Own(r)
  }

  /** A frame that asks for this receipt reached the broker. */
  ghost predicate AskedAndReached(s: State, r: ReceiptId) {
    exists n | n in s.wire.reached :: n < |s.wire.queued| && Asks(s.wire.queued[n], r)
  }

  /** One whose receipt header is the caller's own did. */
  ghost predicate OwnReached(w: Wire, r: ReceiptId) {
    exists n | n in w.reached :: n < |w.queued| && w.queued[n] == Own(r)
  }

  /** An honest run goes on: a confirmation only of what reached the broker. */
  lemma HonestMore(states: seq<State>, steps: seq<Step>, e: Step, n: State)
    requires IsRun(states, steps) && |states| == |steps| + 1 && Honest(states, steps)
    requires Enabled(states[|steps|], e) && Next(states[|steps|], e) == n
    requires e.Io? && e.i.Answer? && e.i.ok ==> AskedAndReached(states[|steps|], e.i.receipt)
    ensures IsRun(states + [n], steps + [e]) && Honest(states + [n], steps + [e])
  {
    hide Enabled, Next, AskedAndReached;
    var more, after := states + [n], steps + [e];
    forall i | 0 <= i < |after|
      ensures Enabled(more[i], after[i]) && more[i + 1] == Next(more[i], after[i])
    {
      if i < |steps| {
        assert more[i] == states[i] && more[i + 1] == states[i + 1] && after[i] == steps[i];
      }
    }
    forall j, r: ReceiptId | 0 <= j < |after| && after[j] == Io(Answer(r, true))
      ensures AskedAndReached(more[j], r)
    {
      if j < |steps| {
        assert steps[j] == Io(Answer(r, true));
      }
    }
  }

  lemma AnswerMoves(s: State, e: Step, r: ReceiptId)
    requires Enabled(s, e) && r in Next(s, e).receipts.answers
    ensures (r in s.receipts.answers && s.receipts.answers[r] == Next(s, e).receipts.answers[r])
         || e == Io(Answer(r, Next(s, e).receipts.answers[r]))
  {
    match e {
      case App(a) =>
        NoAppAnswers(s, a);
        hide AppNext;
      case Io(i) =>
        if i.Answer? {
        } else {
          NoAnswers(s, i);
          hide TaskNext;
        }
      case Net(n) =>
    }
  }

  lemma NoAppAnswers(s: State, e: AppStep)
    requires AppEnabled(s, e)
    ensures AppNext(s, e).receipts.answers == s.receipts.answers
  {
    hide Settled, Forgot, Find, DoRegister, DoUnregister, DoClose, DoReceive;
  }

  lemma NoAnswers(s: State, e: TaskStep)
    requires TaskEnabled(s, e) && !e.Answer?
    ensures TaskNext(s, e).receipts == s.receipts
  {
    hide Recorded, SessionEnded, Forgot, RegisteredIds;
    hide DoClean, DoDeliver, DoWake, DoPrune, DoFail, DoBrokerError, DoExit;
    hide AckTargets, Lists, Woken, Overrun, Disposed;
  }

  /** A confirmed receipt means a frame that asks for it reached the broker. */
  lemma {:induction false} ConfirmedReached(states: seq<State>, steps: seq<Step>, i: nat, r: ReceiptId)
    requires IsRun(states, steps) && i < |states| == |steps| + 1 && Honest(states, steps)
    requires r in states[i].receipts.answers && states[i].receipts.answers[r]
    ensures AskedAndReached(states[i], r)
  {
    hide IsRun, Next, Enabled, AskedAndReached, Sound;
    NoAnswersAtFirst(states, steps);
    if i > 0 {
      RunStep(states, steps, i - 1);
      RunSound(states, steps, i - 1);
      AnswerMoves(states[i - 1], steps[i - 1], r);
      if r in states[i - 1].receipts.answers && states[i - 1].receipts.answers[r] {
        ConfirmedReached(states, steps, i - 1, r);
      } else {
        assert AskedAndReached(states[i - 1], r);
      }
      StepFollows(states[i - 1], steps[i - 1]);
      ReachedStays(states[i - 1], states[i], r);
    }
  }

  lemma NoAnswersAtFirst(states: seq<State>, steps: seq<Step>)
    requires IsRun(states, steps)
    ensures |states| > 0 && states[0].receipts.answers == map[]
  {
    hide Enabled, Next;
  }

  lemma ReachedStays(s: State, n: State, r: ReceiptId)
    requires Follows(s, n) && AskedAndReached(s, r)
    ensures AskedAndReached(n, r)
  {
    hide RegEvolves, BookKept, AnswersKept;
  }

  /** Which sets of log places a broker that reads each connection in order can have processed. */
  predicate Consistent(w: Wire, reached: set<nat>) {
    forall n | n in reached :: CanReach(w.(reached := reached), n)
  }

  /**
   * What it proves that the item at `n` reached the broker, exactly: the items
   * before it that must have reached it too are those written to the same
   * connection. Of every other item the broker may have seen nothing.
   */
  lemma ReachProvesExactly(w: Wire, n: nat, m: nat)
    requires m <= n < |w.disposed| && !w.disposed[n].Stale?
    ensures (forall reached: set<nat> | Consistent(w, reached) && n in reached :: m in reached)
            <==> SameSession(w.disposed[m], w.disposed[n])
  {
    var least := set k: nat | 0 <= k <= n && SameSession(w.disposed[k], w.disposed[n]);
    assert Consistent(w, least);
    forall reached: set<nat> | Consistent(w, reached) && n in reached && SameSession(w.disposed[m], w.disposed[n])
      ensures m in reached
    {
      assert CanReach(w.(reached := reached), n);
    }
  }

  /**
   * So it proves that everything before it reached the broker exactly when
   * everything before it, skipped acknowledgements aside, was written to the
   * same connection.
   */
  lemma ReachProvesAllExactly(w: Wire, n: nat)
    requires n < |w.disposed| && !w.disposed[n].Stale?
    ensures (forall reached: set<nat> | Consistent(w, reached) && n in reached :: AllBefore(w, n) <= reached)
            <==> forall m | m in AllBefore(w, n) :: SameSession(w.disposed[m], w.disposed[n])
  {
    forall m | m in AllBefore(w, n)
      ensures (forall reached: set<nat> | Consistent(w, reached) && n in reached :: m in reached)
              <==> SameSession(w.disposed[m], w.disposed[n])
    {
      ReachProvesExactly(w, n, m);
    }
    hide Consistent, SameSession, AllBefore;
  }

  /** The items before `n` that were written, or tried. */
  function AllBefore(w: Wire, n: nat): set<nat>
    requires n <= |w.disposed|
  {
    set m | 0 <= m < n && !w.disposed[m].Stale?
  }

  lemma ReachedConsistent(states: seq<State>, steps: seq<Step>, i: nat)
    requires IsRun(states, steps) && i < |states|
    ensures Consistent(states[i].wire, states[i].wire.reached)
    ensures |states[i].wire.disposed| <= |states[i].wire.queued|
  {
    RunSound(states, steps, i);
    hide IsRun, RegGood, PhaseGood, LedgerPart, ReceiptsGood, OpsPart, Delivered, NamedOnce, CursorGood, WritingClean;
    var w := states[i].wire;
    assert w.(reached := w.reached) == w;
  }

  /**
   * What a confirmed close does prove. Unless the caller put the receipt id of
   * the DISCONNECT at `n` into a frame of its own, the DISCONNECT reached the
   * broker. Then, if the connection it was written to was already in use at
   * the moment `k`, everything still queued at `k` or queued since, and before
   * it, reached the broker, but for acknowledgements of earlier sessions,
   * which are never written.
   */
  lemma ConfirmedCloseReaches(states: seq<State>, steps: seq<Step>, k: nat, i: nat, r: ReceiptId, n: nat, m: nat)
    requires IsRun(states, steps) && k <= i < |states| == |steps| + 1 && Honest(states, steps)
    requires r in states[i].receipts.answers && states[i].receipts.answers[r]
    requires n < |states[i].wire.disposed| <= |states[i].wire.queued| && states[i].wire.queued[n] == Plain(Some(r))
    requires states[i].wire.disposed[n] == Handed(states[k].session)
    requires |states[k].wire.disposed| <= m < n
    ensures n in states[i].wire.reached || OwnReached(states[i].wire, r)
    ensures n in states[i].wire.reached ==>
              if states[i].wire.disposed[m].Stale? then states[i].wire.queued[m].Ack? else m in states[i].wire.reached
  {
    hide IsRun, Honest;
    ConfirmedReached(states, steps, i, r);
    var w := states[i].wire;
    var its :| its in w.reached && its < |w.queued| && Asks(w.queued[its], r);
    if w.queued[its] == Own(r) {
      assert OwnReached(w, r);
    } else if its < n {
      OneFramePerReceipt(states, steps, i, its, n);
    } else if n < its {
      OneFramePerReceipt(states, steps, i, n, its);
    }
    if n in w.reached {
      ReachedBefore(states, steps, k, i, n, m);
    }
  }

  /** What reached the broker brought what was queued under its connection with it. */
  lemma ReachedBefore(states: seq<State>, steps: seq<Step>, k: nat, i: nat, n: nat, m: nat)
    requires IsRun(states, steps) && k <= i < |states|
    requires |states[k].wire.disposed| <= m < n < |states[i].wire.disposed| <= |states[i].wire.queued|
    requires states[i].wire.disposed[n] == Handed(states[k].session) && n in states[i].wire.reached
    ensures if states[i].wire.disposed[m].Stale? then states[i].wire.queued[m].Ack? else m in states[i].wire.reached
  {
    hide IsRun;
    var w := states[i].wire;
    ReachedConsistent(states, steps, i);
    assert w.(reached := w.reached) == w;
    assert CanReach(w, n);
    CloseDrains(states, steps, i, n, m);
    RunFollows(states, steps, k, i);
    SinceThen(states[k], states[i], m);
    if !w.disposed[m].Stale? {
      assert SameSession(w.disposed[m], w.disposed[n]);
    }
  }

  lemma SinceThen(s: State, n: State, m: nat)
    requires Follows(s, n) && |s.wire.disposed| <= m < |n.wire.disposed|
    ensures n.wire.disposed[m].Stale? || s.session <= n.wire.disposed[m].session
  {
    hide RegEvolves, BookKept, AnswersKept;
  }
}
