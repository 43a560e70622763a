/** Resubscription over every run: what each connection is told about each subscription. */
module Resubscribing {
  import opened Types
  import opened Lane
  import opened Registry
  import opened Ledger
  import opened Wire
  import opened Client
  import opened Invariant
  import opened Delivery
  import opened Acks
  import opened Runs

  // ---------------------------------------------------------------- where a SUBSCRIBE is

  /**
   * A later section of this connection, or the next connection, will replay
   * the subscription, or the task will exit.
   */
  predicate ToReplay(p: Phase, id: SubId) {
    || p.Dropped? || p.Backoff? || p.Head? || p.Passed? || p.Dialing? || p == Fresh(true) || p.Snapshot?
    || p.Exiting? || p.Done?
    || (p.Replaying? && Listed(p.ids, id))
  }

  predicate Listed(ids: seq<SubId>, id: SubId) {
    exists i | 0 <= i < |ids| :: ids[i] == id
  }

  /** Its SUBSCRIBE waits in the queue at `n`. */
  predicate QueuedAt(w: Wire, n: nat, id: SubId) {
    |w.disposed| <= n < |w.queued| && w.queued[n] == Subscribe(id)
  }

  /** Its SUBSCRIBE is queued, or in the hands of the call that registered it. */
  ghost predicate Underway(s: State, id: SubId) {
    || (exists n: nat :: QueuedAt(s.wire, n, id))
    || (exists t | t in s.ops :: s.ops[t] == Subscribing(id))
  }

  /** Its SUBSCRIBE was handed from the queue to the connection of this session. */
  ghost predicate HandedIn(w: Wire, session: nat, id: SubId) {
    exists n | 0 <= n < |w.disposed| ::
      n < |w.queued| && w.queued[n] == Subscribe(id) && w.disposed[n] == Handed(session)
  }

  /** The step writes, or tries to, the replayed SUBSCRIBE for `id`. */
  predicate Replays(s: State, e: Step, id: SubId) {
    e.Io? && e.i.ReplayOne? && s.phase.Replaying? && s.phase.ids != [] && s.phase.ids[0] == id
  }

  /** The step drops the call that was to queue it. */
  predicate DropsCall(s: State, e: Step, id: SubId) {
    e.App? && e.a.Cancel? && e.a.t in s.ops && s.ops[e.a.t] == Subscribing(id)
  }

  /** In the session of state `i` the SUBSCRIBE for `id` was replayed, and the write went well or not. */
  ghost predicate Replayed(states: seq<State>, steps: seq<Step>, i: nat, id: SubId, ok: bool)
    requires i <= |steps| && |states| == |steps| + 1
  {
    exists k | 0 <= k < i ::
      Replays(states[k], steps[k], id) && steps[k].i.ok == ok && states[k].session == states[i].session
  }

  /** Its SUBSCRIBE was handed from the queue to the connection in use, or is still to come. */
  ghost predicate Placed(s: State, id: SubId) {
    ToReplay(s.phase, id) || Underway(s, id) || HandedIn(s.wire, s.session, id)
  }

  // ---------------------------------------------------------------- application sections

  lemma AppPlaced(s: State, a: AppStep, id: SubId)
    requires AppEnabled(s, a) && Placed(s, id) && |s.wire.disposed| <= |s.wire.queued|
    ensures Placed(AppNext(s, a), id) || DropsCall(s, App(a), id)
  {
    AppFrame(s, a);
    var n := AppNext(s, a);
    hide ToReplay, AppNext;
    if ToReplay(s.phase, id) {
    } else if k: nat :| QueuedAt(s.wire, k, id) {
      assert QueuedAt(n.wire, k, id);
    } else if t :| t in s.ops && s.ops[t] == Subscribing(id) {
      CallPlaced(s, a, t, id);
    } else {
      var k :| 0 <= k < |s.wire.disposed| && k < |s.wire.queued| && s.wire.queued[k] == Subscribe(id)
               && s.wire.disposed[k] == Handed(s.session);
      assert n.wire.queued[k] == Subscribe(id) && n.wire.disposed[k] == Handed(n.session);
    }
  }

  /** The call goes on, queues its frame, or is dropped. */
  lemma CallPlaced(s: State, a: AppStep, t: Tid, id: SubId)
    requires AppEnabled(s, a) && t in s.ops && s.ops[t] == Subscribing(id) && |s.wire.disposed| <= |s.wire.queued|
    ensures Underway(AppNext(s, a), id) || DropsCall(s, App(a), id)
  {
    AppFrame(s, a);
    AppLeaves(s, a);
    var n := AppNext(s, a);
    if a == Enqueue(t) {
      assert QueuedAt(n.wire, |s.wire.queued|, id);
    } else if a == Cancel(t) {
    } else if Actor(a) == t && InCall(a) {
      assert false;
    } else {
      hide AppNext;
      assert t in n.ops && n.ops[t] == Subscribing(id) by {
        assert Actor(a) != t ==> (s.ops - {Actor(a)})[t] == (n.ops - {Actor(a)})[t];
      }
    }
  }

  // ---------------------------------------------------------------- sections of the I/O task

  lemma TaskPlaced(s: State, e: TaskStep, id: SubId)
    requires TaskEnabled(s, e) && Good(s) && Placed(s, id) && Registered(s.reg, id)
    ensures Placed(TaskNext(s, e), id) || Replays(s, Io(e), id)
  {
    GoodParts(s);
    if ToReplay(s.phase, id) {
      hide Good, Placed;
      StillToReplay(s, e, id);
    } else {
      TaskFrame(s, e);
      hide Good, PhaseGood, OpsPart, LedgerPart, RegGood, ToReplay, Underway, HandedIn;
      if Underway(s, id) {
        TaskUnderway(s, e, id);
      } else {
        TaskHanded(s, e, id);
      }
    }
  }

  /** From the loss of a connection on, until the replay comes to it. */
  lemma StillToReplay(s: State, e: TaskStep, id: SubId)
    requires TaskEnabled(s, e) && ToReplay(s.phase, id) && Registered(s.reg, id)
    ensures ToReplay(TaskNext(s, e).phase, id) || Replays(s, Io(e), id)
  {
    match e {
      case TakeSnapshot(ids) =>
        assert id in RegisteredIds(s.reg);
        assert Listed(ids, id);
      case ReplayOne(ok) =>
        var ids := s.phase.ids;
        var i :| 0 <= i < |ids| && ids[i] == id;
        assert i > 0 ==> ids[1..][i - 1] == id;
      case _ =>
        hide SessionEnded, DoClean, DoExit, RegisteredIds, Registered, Listed, Lists, Woken, Overrun, AckTargets;
    }
  }

  lemma TaskUnderway(s: State, e: TaskStep, id: SubId)
    requires TaskEnabled(s, e) && Underway(s, id)
    requires TaskNext(s, e).ops == s.ops && TaskNext(s, e).wire.queued == s.wire.queued
    ensures Underway(TaskNext(s, e), id) || ToReplay(TaskNext(s, e).phase, id)
         || HandedIn(TaskNext(s, e).wire, TaskNext(s, e).session, id)
  {
    var n := TaskNext(s, e);
    if t :| t in s.ops && s.ops[t] == Subscribing(id) {
      assert t in n.ops;
    } else {
      var k: nat :| QueuedAt(s.wire, k, id);
      if e.Take? || e.WriteDone? {
        FrontTaken(s, e, k, id);
      } else {
        OtherDisposed(s, e);
        hide TaskNext, TaskEnabled;
        assert QueuedAt(n.wire, k, id);
      }
    }
  }

  /** Only a write disposes of a SUBSCRIBE: it was handed over, or the connection is gone. */
  lemma FrontTaken(s: State, e: TaskStep, k: nat, id: SubId)
    requires TaskEnabled(s, e) && QueuedAt(s.wire, k, id) && (e.Take? || e.WriteDone?)
    ensures QueuedAt(TaskNext(s, e).wire, k, id) || ToReplay(TaskNext(s, e).phase, id)
         || HandedIn(TaskNext(s, e).wire, TaskNext(s, e).session, id)
  {
    var n := TaskNext(s, e);
    hide Lists, Woken, Overrun;
    if k == |s.wire.disposed| && e.WriteDone? && e.ok {
      assert n.wire.disposed[k] == Handed(s.session);
    }
  }

  lemma TaskHanded(s: State, e: TaskStep, id: SubId)
    requires TaskEnabled(s, e) && HandedIn(s.wire, s.session, id) && TaskNext(s, e).wire.queued == s.wire.queued
    ensures HandedIn(TaskNext(s, e).wire, TaskNext(s, e).session, id) || ToReplay(TaskNext(s, e).phase, id)
  {
    var n := TaskNext(s, e);
    var k :| 0 <= k < |s.wire.disposed| && k < |s.wire.queued| && s.wire.queued[k] == Subscribe(id)
             && s.wire.disposed[k] == Handed(s.session);
    if e.EndSession? {
      hide SessionEnded;
    } else {
      DisposedMore(s, e);
      hide TaskNext, TaskEnabled, ToReplay;
      assert n.wire.queued[k] == Subscribe(id) && n.wire.disposed[k] == Handed(n.session);
    }
  }

  lemma DisposedMore(s: State, e: TaskStep)
    requires TaskEnabled(s, e) && !e.EndSession?
    ensures s.wire.disposed <= TaskNext(s, e).wire.disposed && TaskNext(s, e).session == s.session
  {
    if e.Take? || e.WriteDone? {
      hide Lists, Woken, Overrun;
    } else {
      OtherDisposed(s, e);
      hide TaskNext, TaskEnabled;
    }
  }

  // ---------------------------------------------------------------- over a run

  /** A subscription is new only by a call that has its SUBSCRIBE to queue. */
  lemma NewIsUnderway(s: State, e: Step, id: SubId)
    requires Enabled(s, e) && Sound(s) && Registered(Next(s, e).reg, id) && !Registered(s.reg, id)
    ensures Underway(Next(s, e), id)
  {
    StepFollows(s, e);
    SoundParts(s);
    hide Sound, RegGood, PhaseGood, LedgerPart, OpsPart, HistoryPart, NamedOnce, BookKept, AnswersKept, WireKept;
    match e {
      case App(a) => AppNew(s, a, id);
      case Io(i) =>
        TaskIds(s, i);
        hide TaskNext;
      case Net(n) =>
    }
  }

  lemma AppNew(s: State, a: AppStep, id: SubId)
    requires AppEnabled(s, a) && Registered(AppNext(s, a).reg, id) && !Registered(s.reg, id)
    ensures Underway(AppNext(s, a), id)
  {
    hide Settled, Find, Forgot, Registering, HandleClosed, Deregistered, NewLane, Discarded;
    if a.Register? {
      assert AppNext(s, a).ops[a.t] == Subscribing(s.reg.nextId);
    }
  }

  lemma TaskIds(s: State, e: TaskStep)
    requires TaskEnabled(s, e)
    ensures TaskNext(s, e).reg.nextId == s.reg.nextId
  {
    hide Recorded, SessionEnded, Forgot, RegisteredIds, Pruned, Without, AfterOffer, AfterDrain, AfterClean, RemovedFor;
    hide Lists, Woken, Overrun, Disposed, Drained, Target, AckTargets, Acking;
  }

  lemma StepPlaced(s: State, e: Step, id: SubId)
    requires Enabled(s, e) && Sound(s) && Placed(s, id) && Registered(s.reg, id)
    ensures Placed(Next(s, e), id) || Replays(s, e, id) || DropsCall(s, e, id)
  {
    hide Sound, Good, RegGood, PhaseGood, LedgerPart, OpsPart, HistoryPart, NamedOnce, Replays, DropsCall, Placed;
    hide AppNext, TaskNext, AppEnabled, TaskEnabled, CanReach;
    SoundParts(s);
    LogFits(s);
    match e {
      case App(a) => AppPlaced(s, a, id);
      case Io(i) => TaskPlaced(s, i, id);
      case Net(n) => NetPlaced(s, n, id);
    }
  }

  lemma NetPlaced(s: State, k: nat, id: SubId)
    requires CanReach(s.wire, k) && Placed(s, id)
    ensures Placed(s.(wire := Processed(s.wire, k)), id)
  {
    var n := s.(wire := Processed(s.wire, k));
    hide ToReplay, CanReach;
    if i: nat :| QueuedAt(s.wire, i, id) {
      assert QueuedAt(n.wire, i, id);
    }
  }

  lemma LogFits(s: State)
    requires Good(s)
    ensures |s.wire.disposed| <= |s.wire.queued|
  {
    hide RegGood, PhaseGood, LedgerPart, ReceiptsGood, OpsPart;
  }

  /** A new session begins with nothing on its connection, and a replay to come. */
  lemma SessionReplays(s: State, e: Step, id: SubId)
    requires Enabled(s, e) && Next(s, e).session != s.session
    ensures ToReplay(Next(s, e).phase, id)
  {
    match e {
      case App(a) =>
        AppFrame(s, a);
        hide AppNext;
      case Io(i) =>
        if !i.EndSession? {
          DisposedMore(s, i);
          hide TaskNext;
        }
      case Net(n) =>
    }
  }

  /** The connection in use was handed a SUBSCRIBE, from the queue or by the replay, or one is still to come. */
  ghost predicate Told(states: seq<State>, steps: seq<Step>, i: nat, id: SubId)
    requires i <= |steps| && |states| == |steps| + 1
  {
    Placed(states[i], id) || Replayed(states, steps, i, id, true)
  }

  /**
   * At step `k` a replayed SUBSCRIBE cannot be written, or its call is dropped,
   * and that leaves no other for the connection in use.
   */
  ghost predicate LostAt(states: seq<State>, steps: seq<Step>, k: nat, id: SubId)
    requires k < |steps| && |states| == |steps| + 1
  {
    && ((Replays(states[k], steps[k], id) && !steps[k].i.ok) || DropsCall(states[k], steps[k], id))
    && !Told(states, steps, k + 1, id)
  }

  ghost predicate LostInSession(states: seq<State>, steps: seq<Step>, i: nat, id: SubId)
    requires i <= |steps| && |states| == |steps| + 1
  {
    exists k | 0 <= k < i :: states[k].session == states[i].session && LostAt(states, steps, k, id)
  }

  /**
   * Resubscription, over every run: for a registered subscription the
   * connection in use was handed a SUBSCRIBE, from the queue or by the replay,
   * or one is still to come, from the queue, its call or a replay; except
   * exactly when the connection is past its replay and, in this session, the
   * replay's write or the dropping of the call lost the only one there was.
   */
  lemma Resubscribed(states: seq<State>, steps: seq<Step>, i: nat, id: SubId)
    requires IsRun(states, steps) && i < |states| == |steps| + 1 && Registered(states[i].reg, id)
    ensures !Told(states, steps, i, id)
            <==> !ToReplay(states[i].phase, id) && LostInSession(states, steps, i, id)
  {
    hide IsRun, Told, LostAt, ToReplay;
    if !Told(states, steps, i, id) {
      ToldOrLost(states, steps, i, id);
      if ToReplay(states[i].phase, id) {
        ReplayTold(states, steps, i, id);
      }
    } else if LostInSession(states, steps, i, id) {
      var k :| 0 <= k < i && states[k].session == states[i].session && LostAt(states, steps, k, id);
      LostStays(states, steps, k, i, id);
    }
  }

  lemma ReplayTold(states: seq<State>, steps: seq<Step>, i: nat, id: SubId)
    requires i <= |steps| && |states| == |steps| + 1 && ToReplay(states[i].phase, id)
    ensures Told(states, steps, i, id)
  {
    hide ToReplay, Replayed;
  }

  // ---------------------------------------------------------------- untold only by a loss

  lemma {:induction false} ToldOrLost(states: seq<State>, steps: seq<Step>, i: nat, id: SubId)
    requires IsRun(states, steps) && i < |states| == |steps| + 1 && Registered(states[i].reg, id)
    ensures Told(states, steps, i, id) || LostInSession(states, steps, i, id)
  {
    hide IsRun, Next, Enabled, Sound, Told, LostInSession, INIT;
    NoneRegisteredAtFirst(states, steps, id);
    if i > 0 {
      var s, e := states[i - 1], steps[i - 1];
      RunStep(states, steps, i - 1);
      RunSound(states, steps, i - 1);
      if Registered(s.reg, id) {
        ToldOrLost(states, steps, i - 1, id);
        ToldOn(states, steps, i, id);
      } else {
        NewIsUnderway(s, e, id);
        assert Told(states, steps, i, id) by { UnderwayTold(states, steps, i, id); }
      }
    }
  }

  lemma NoneRegisteredAtFirst(states: seq<State>, steps: seq<Step>, id: SubId)
    requires IsRun(states, steps)
    ensures |states| > 0 && !Registered(states[0].reg, id)
  {
    hide Enabled, Next;
  }

  lemma UnderwayTold(states: seq<State>, steps: seq<Step>, i: nat, id: SubId)
    requires i <= |steps| && |states| == |steps| + 1 && Underway(states[i], id)
    ensures Told(states, steps, i, id)
  {
    hide Underway, ToReplay, HandedIn, Replayed;
  }

  lemma ToldOn(states: seq<State>, steps: seq<Step>, i: nat, id: SubId)
    requires 0 < i <= |steps| && |states| == |steps| + 1
    requires Told(states, steps, i - 1, id) || LostInSession(states, steps, i - 1, id)
    requires Enabled(states[i - 1], steps[i - 1]) && states[i] == Next(states[i - 1], steps[i - 1])
    requires Sound(states[i - 1]) && Registered(states[i - 1].reg, id)
    ensures Told(states, steps, i, id) || LostInSession(states, steps, i, id)
  {
    hide Enabled, Next, Sound, Placed, Replays, DropsCall;
    var s, e := states[i - 1], steps[i - 1];
    if states[i].session != s.session {
      SessionReplays(s, e, id);
      ReplayTold(states, steps, i, id);
    } else if LostInSession(states, steps, i - 1, id) {
      hide LostAt;
    } else if Placed(s, id) {
      StepPlaced(s, e, id);
      if e.Io? && e.i.ReplayOne? && e.i.ok && Replays(s, e, id) {
        assert Replayed(states, steps, i, id, true);
      } else if !Told(states, steps, i, id) {
        assert LostAt(states, steps, i - 1, id);
      }
    }
  }

  // ---------------------------------------------------------------- a loss lasts as long as the connection

  /** The connection is lost, or the task is leaving. */
  predicate Over(p: Phase) {
    p.Dropped? || p.Exiting? || p.Done?
  }

  lemma OverStays(s: State, e: Step)
    requires Enabled(s, e) && Over(s.phase) && Next(s, e).session == s.session
    ensures Over(Next(s, e).phase)
  {
    match e {
      case App(a) =>
        AppFrame(s, a);
        hide AppNext;
      case Io(i) => hide SessionEnded, Lists, Woken, Overrun;
      case Net(n) =>
    }
  }

  /** No SUBSCRIBE for an old id is ever queued, and none is replayed but from the list. */
  lemma StaysUntold(s: State, e: Step, id: SubId)
    requires Enabled(s, e) && Sound(s) && !Placed(s, id) && id in s.reg.subs && Next(s, e).session == s.session
    ensures !Replays(s, e, id)
    ensures !Placed(Next(s, e), id) || Over(Next(s, e).phase)
  {
    hide Sound, Good, RegGood, PhaseGood, LedgerPart, OpsPart, HistoryPart, NamedOnce, CanReach;
    hide AppNext, TaskNext, AppEnabled, TaskEnabled, HandedIn, Underway, ToReplay;
    SoundParts(s);
    LogFits(s);
    NotListed(s, e, id);
    match e {
      case App(a) => AppUntold(s, a, id);
      case Io(i) => TaskUntold(s, i, id);
      case Net(n) => NetUntold(s, n, id);
    }
  }

  lemma NotListed(s: State, e: Step, id: SubId)
    requires !ToReplay(s.phase, id)
    ensures !Replays(s, e, id)
  {
  }

  lemma AppUntold(s: State, a: AppStep, id: SubId)
    requires AppEnabled(s, a) && RegGood(s.reg) && OpsPart(s) && |s.wire.disposed| <= |s.wire.queued|
    requires !Placed(s, id) && id in s.reg.subs
    ensures !Placed(AppNext(s, a), id)
  {
    AppFrame(s, a);
    IdBelow(s.reg, id);
    var n := AppNext(s, a);
    hide RegGood, OpsPart, ToReplay, AppNext, AppEnabled, Underway, HandedIn;
    if Underway(n, id) {
      AppUnderwayBefore(s, a, id);
    }
    if HandedIn(n.wire, n.session, id) {
      HandedBefore(s.wire, n.wire, s.session, id);
    }
  }

  /** A SUBSCRIBE for an old id that is underway was so before. */
  lemma AppUnderwayBefore(s: State, a: AppStep, id: SubId)
    requires AppEnabled(s, a) && OpsPart(s) && id < s.reg.nextId && Underway(AppNext(s, a), id)
    ensures Underway(s, id)
  {
    AppFrame(s, a);
    var n := AppNext(s, a);
    hide AppNext, AppEnabled;
    if k: nat :| QueuedAt(n.wire, k, id) {
      if k < |s.wire.queued| {
        assert QueuedAt(s.wire, k, id);
      } else {
        QueuesHeld(s, a, k, id);
        assert OpGood(s, s.ops[a.t]);
      }
    } else {
      var t :| t in n.ops && n.ops[t] == Subscribing(id);
      HoldsOld(s, a, t, id);
    }
  }

  /** A SUBSCRIBE handed over was handed over before, when nothing more was. */
  lemma HandedBefore(v: Wire, w: Wire, session: nat, id: SubId)
    requires v.disposed == w.disposed && v.queued <= w.queued && |v.disposed| <= |v.queued| && HandedIn(w, session, id)
    ensures HandedIn(v, session, id)
  {
    var k :| 0 <= k < |w.disposed| && k < |w.queued|
             && w.queued[k] == Subscribe(id) && w.disposed[k] == Handed(session);
    assert v.queued[k] == Subscribe(id) && v.disposed[k] == Handed(session);
  }

  /** What a call queues was in its hands. */
  lemma QueuesHeld(s: State, a: AppStep, k: nat, id: SubId)
    requires AppEnabled(s, a) && k == |s.wire.queued| < |AppNext(s, a).wire.queued|
    requires AppNext(s, a).wire.queued[k] == Subscribe(id)
    ensures a.Enqueue? && a.t in s.ops && (s.ops[a.t] == Subscribing(id) || s.ops[a.t] == Sending(Subscribe(id)))
  {
    hide Settled, Find, Forgot, DoRegister, DoUnregister, DoClose, DoReceive, Registering, HandleClosed, Deregistered;
  }

  /** No call is given an old id. */
  lemma HoldsOld(s: State, a: AppStep, t: Tid, id: SubId)
    requires AppEnabled(s, a) && id < s.reg.nextId && t in AppNext(s, a).ops && AppNext(s, a).ops[t] == Subscribing(id)
    ensures t in s.ops && s.ops[t] == Subscribing(id)
  {
    hide Settled, Find, Forgot, DoRegister, DoUnregister, DoClose, DoReceive, Registering, HandleClosed, Deregistered;
  }

  lemma TaskUntold(s: State, e: TaskStep, id: SubId)
    requires TaskEnabled(s, e) && PhaseGood(s) && OpsPart(s) && !Placed(s, id)
    requires TaskNext(s, e).session == s.session
    ensures !Placed(TaskNext(s, e), id) || Over(TaskNext(s, e).phase)
  {
    TaskFrame(s, e);
    NothingToReplay(s, e, id);
    DisposedOn(s, e);
    var n := TaskNext(s, e);
    hide ToReplay, TaskNext, TaskEnabled, PhaseGood, OpsPart, Over, Underway, HandedIn;
    if Underway(n, id) {
      TaskUnderwayBefore(s, n, id);
    }
    if HandedIn(n.wire, n.session, id) {
      HandedOrQueued(s, n, id);
    }
  }

  lemma TaskUnderwayBefore(s: State, n: State, id: SubId)
    requires n.ops == s.ops && n.wire.queued == s.wire.queued && s.wire.disposed <= n.wire.disposed && Underway(n, id)
    ensures Underway(s, id)
  {
    if k: nat :| QueuedAt(n.wire, k, id) {
      assert QueuedAt(s.wire, k, id);
    }
  }

  lemma HandedOrQueued(s: State, n: State, id: SubId)
    requires n.session == s.session && n.wire.queued == s.wire.queued && s.wire.disposed <= n.wire.disposed
    requires HandedIn(n.wire, n.session, id)
    ensures HandedIn(s.wire, s.session, id) || Underway(s, id)
  {
    var k :| 0 <= k < |n.wire.disposed| && k < |n.wire.queued| && n.wire.queued[k] == Subscribe(id)
             && n.wire.disposed[k] == Handed(n.session);
    if k < |s.wire.disposed| {
      assert s.wire.disposed[k] == Handed(s.session);
    } else {
      assert QueuedAt(s.wire, k, id);
    }
  }

  lemma NothingToReplay(s: State, e: TaskStep, id: SubId)
    requires TaskEnabled(s, e) && !ToReplay(s.phase, id)
    ensures !ToReplay(TaskNext(s, e).phase, id) || Over(TaskNext(s, e).phase)
  {
    match e {
      case ReplayOne(ok) =>
        var ids := s.phase.ids;
        assert forall i | 0 < i < |ids| :: ids[1..][i - 1] == ids[i];
      case _ =>
        hide Recorded, SessionEnded, DoClean, DoDeliver, DoWake, DoPrune, DoFail, DoBrokerError, DoExit, Forgot;
        hide AckTargets, Acking, Lists, Woken, Overrun, Disposed, RegisteredIds, Registered, Listed, Drained;
    }
  }

  lemma DisposedOn(s: State, e: TaskStep)
    requires TaskEnabled(s, e)
    ensures s.wire.disposed <= TaskNext(s, e).wire.disposed
  {
    if e.Take? || e.WriteDone? {
      hide Lists, Woken, Overrun;
    } else {
      OtherDisposed(s, e);
      hide TaskNext, TaskEnabled;
    }
  }

  lemma NetUntold(s: State, k: nat, id: SubId)
    requires CanReach(s.wire, k) && !Placed(s, id)
    ensures !Placed(s.(wire := Processed(s.wire, k)), id)
  {
    var n := s.(wire := Processed(s.wire, k));
    hide ToReplay, CanReach, Underway;
    if Underway(n, id) {
      TaskUnderwayBefore(s, n, id);
    }
  }

  /** The subscription the step loses was registered before. */
  lemma LostExists(s: State, e: Step, id: SubId)
    requires Enabled(s, e) && Sound(s) && (Replays(s, e, id) || DropsCall(s, e, id))
    ensures id in s.reg.subs
  {
    SoundParts(s);
    if DropsCall(s, e, id) {
      assert OpGood(s, s.ops[e.a.t]);
    }
    hide Sound, Enabled, RegGood, LedgerPart, HistoryPart, NamedOnce;
  }

  lemma IdStays(states: seq<State>, steps: seq<Step>, i: nat, j: nat, id: SubId)
    requires IsRun(states, steps) && i <= j < |states| && id in states[i].reg.subs
    ensures id in states[j].reg.subs && states[i].session <= states[j].session
  {
    RunFollows(states, steps, i, j);
    hide IsRun, BookKept, AnswersKept, WireKept, SubEvolves;
  }

  lemma {:induction false} LostFor(states: seq<State>, steps: seq<Step>, k: nat, j: nat, id: SubId)
    requires IsRun(states, steps) && k < j < |states| == |steps| + 1 && LostAt(states, steps, k, id)
    requires states[k].session == states[j].session
    ensures Over(states[j].phase) || !Told(states, steps, j, id)
    decreases j
  {
    hide IsRun, Next, Enabled, Sound, Placed, Over, Replays, DropsCall, INIT;
    RunSize(states, steps);
    if k + 1 < j {
      RunStep(states, steps, k);
      RunSound(states, steps, k);
      LostExists(states[k], steps[k], id);
      IdStays(states, steps, k, j - 1, id);
      var s, e := states[j - 1], steps[j - 1];
      RunStep(states, steps, j - 1);
      RunSound(states, steps, j - 1);
      SessionsOn(states, steps, j - 1);
      LostFor(states, steps, k, j - 1, id);
      if Over(s.phase) {
        OverStays(s, e);
      } else {
        StaysUntold(s, e, id);
        if Replayed(states, steps, j, id, true) {
          ReplayedBefore(states, steps, j, id, true);
        }
      }
    }
  }

  lemma ReplayedBefore(states: seq<State>, steps: seq<Step>, i: nat, id: SubId, ok: bool)
    requires 0 < i <= |steps| && |states| == |steps| + 1 && Replayed(states, steps, i, id, ok)
    requires !Replays(states[i - 1], steps[i - 1], id) && states[i].session == states[i - 1].session
    ensures Replayed(states, steps, i - 1, id, ok)
  {
    hide Replays;
  }

  lemma SessionsOn(states: seq<State>, steps: seq<Step>, i: nat)
    requires IsRun(states, steps) && i < |steps| && |states| == |steps| + 1
    ensures states[i].session <= states[i + 1].session
  {
    RunFollows(states, steps, i, i + 1);
    hide IsRun, RegEvolves, BookKept, AnswersKept, WireKept;
  }

  lemma LostStays(states: seq<State>, steps: seq<Step>, k: nat, i: nat, id: SubId)
    requires IsRun(states, steps) && k < i < |states| == |steps| + 1 && LostAt(states, steps, k, id)
    requires states[k].session == states[i].session
    ensures ToReplay(states[i].phase, id) || !Told(states, steps, i, id)
  {
    hide IsRun, LostAt, Told;
    LostFor(states, steps, k, i, id);
  }

  // ---------------------------------------------------------------- no connection replays a subscription twice

  /** No connection of this session is past the replay of `id`. */
  predicate BeforeReplay(p: Phase, id: SubId) {
    || p.Boot? || p.Backoff? || p.Head? || p.Passed? || p.Dialing? || p.Fresh? || p.Snapshot?
    || (p.Replaying? && Listed(p.ids, id))
  }

  lemma TaskBefore(s: State, e: TaskStep, id: SubId)
    requires TaskEnabled(s, e) && BeforeReplay(TaskNext(s, e).phase, id)
    requires s.phase.Replaying? ==> Distinct(s.phase.ids)
    ensures TaskNext(s, e).session != s.session || (BeforeReplay(s.phase, id) && !Replays(s, Io(e), id))
  {
    if e.ReplayOne? {
      var ids := s.phase.ids;
      hide Lists, Woken, Overrun;
      if ids != [] {
        var i :| 0 <= i < |ids[1..]| && ids[1..][i] == id;
        assert ids[i + 1] == id;
      }
    } else {
      OtherBefore(s, e, id);
    }
  }

  lemma OtherBefore(s: State, e: TaskStep, id: SubId)
    requires TaskEnabled(s, e) && !e.ReplayOne? && BeforeReplay(TaskNext(s, e).phase, id)
    ensures TaskNext(s, e).session != s.session || BeforeReplay(s.phase, id)
  {
    hide Recorded, SessionEnded, DoClean, DoDeliver, DoWake, DoPrune, DoFail, DoBrokerError, DoExit, Forgot;
    hide AckTargets, Acking, Lists, Woken, Overrun, Disposed, RegisteredIds, Registered, Listed, Drained, Writable;
  }

  lemma TaskDistinct(s: State, e: TaskStep)
    requires TaskEnabled(s, e) && TaskNext(s, e).phase.Replaying?
    requires s.phase.Replaying? ==> Distinct(s.phase.ids)
    ensures Distinct(TaskNext(s, e).phase.ids)
  {
    match e {
      case ReplayOne(ok) =>
      case TakeSnapshot(ids) =>
      case _ =>
        hide Recorded, SessionEnded, DoClean, DoDeliver, DoWake, DoPrune, DoFail, DoBrokerError, DoExit, Forgot;
        hide AckTargets, Acking, Lists, Woken, Overrun, Disposed, RegisteredIds, Registered, Distinct, Drained;
    }
  }

  lemma {:induction false} ReplayDistinct(states: seq<State>, steps: seq<Step>, i: nat)
    requires IsRun(states, steps) && i < |states| == |steps| + 1 && states[i].phase.Replaying?
    ensures Distinct(states[i].phase.ids)
  {
    hide IsRun, Next, Enabled, Distinct;
    RunSize(states, steps);
    if i > 0 {
      RunStep(states, steps, i - 1);
      if states[i - 1].phase.Replaying? {
        ReplayDistinct(states, steps, i - 1);
      }
      StepDistinct(states[i - 1], steps[i - 1]);
    }
  }

  lemma StepDistinct(s: State, e: Step)
    requires Enabled(s, e) && Next(s, e).phase.Replaying? && (s.phase.Replaying? ==> Distinct(s.phase.ids))
    ensures Distinct(Next(s, e).phase.ids)
  {
    match e {
      case App(a) =>
        AppFrame(s, a);
        hide AppNext;
      case Io(i) =>
        TaskDistinct(s, i);
        hide TaskNext;
      case Net(n) =>
    }
  }

  lemma StepBefore(s: State, e: Step, id: SubId)
    requires Enabled(s, e) && BeforeReplay(Next(s, e).phase, id) && (s.phase.Replaying? ==> Distinct(s.phase.ids))
    ensures Next(s, e).session != s.session || (BeforeReplay(s.phase, id) && !Replays(s, e, id))
  {
    match e {
      case App(a) =>
        AppFrame(s, a);
        hide AppNext;
      case Io(i) =>
        TaskBefore(s, i, id);
        hide TaskNext;
      case Net(n) =>
    }
  }

  /** What is still to be replayed was not replayed in this session. */
  lemma {:induction false} NotYetReplayed(states: seq<State>, steps: seq<Step>, i: nat, id: SubId, ok: bool)
    requires IsRun(states, steps) && i < |states| == |steps| + 1 && BeforeReplay(states[i].phase, id)
    ensures !Replayed(states, steps, i, id, ok)
  {
    hide IsRun, Next, Enabled, BeforeReplay, Replays, Distinct;
    RunSize(states, steps);
    if i > 0 {
      RunStep(states, steps, i - 1);
      SessionsUpTo(states, steps, i - 1);
      SessionsOn(states, steps, i - 1);
      if states[i - 1].phase.Replaying? {
        ReplayDistinct(states, steps, i - 1);
      }
      StepBefore(states[i - 1], steps[i - 1], id);
      if states[i].session == states[i - 1].session {
        NotYetReplayed(states, steps, i - 1, id, ok);
      }
    }
  }

  lemma SessionsUpTo(states: seq<State>, steps: seq<Step>, i: nat)
    requires IsRun(states, steps) && i < |states|
    ensures forall k | 0 <= k <= i :: states[k].session <= states[i].session
  {
    forall k | 0 <= k <= i
      ensures states[k].session <= states[i].session
    {
      RunFollows(states, steps, k, i);
    }
    hide IsRun, Follows;
  }

  /** No subscription is replayed twice in a session. */
  lemma ReplayedOnce(states: seq<State>, steps: seq<Step>, j: nat, k: nat, id: SubId)
    requires IsRun(states, steps) && j < k < |steps| && |states| == |steps| + 1
    requires Replays(states[j], steps[j], id) && Replays(states[k], steps[k], id)
    ensures states[j].session < states[k].session
  {
    hide IsRun;
    SessionsUpTo(states, steps, k);
    assert Listed(states[k].phase.ids, id);
    NotYetReplayed(states, steps, k, id, steps[j].i.ok);
  }
}
