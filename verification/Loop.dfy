/** The I/O task's loop over every run: where each section leads, and that it is never stuck. */
module Loop {
  import opened Options
  import opened Lane
  import opened Types
  import opened Registry
  import opened Ledger
  import opened Wire
  import opened Client
  import opened Invariant
  import opened Runs
  import opened Waking

  // ---------------------------------------------------------------- where each section leads

  /**
   * Where a section leads, but for what a MESSAGE does before its delivery
   * pass and a wake-up. A signal that is there sends the task to its exit from
   * its start, from a backoff and from the loop head.
   */
  ghost predicate LeadsTo(s: State, e: TaskStep, p: Phase)
    requires TaskEnabled(s, e)
  {
    match e
    case Start => p == if s.halt.unread > 0 then Exiting else Fresh(false)
    case Clean => p == if s.phase.replay then Snapshot else Idle
    case TakeSnapshot(ids) =>
      p == Replaying(ids) && forall id :: id in ids <==> id in s.reg.subs && s.reg.subs[id].registered
    case ReplayOne(_) => p == if s.phase.ids == [] then Idle else Replaying(s.phase.ids[1..])
    case ForgetWritten => p == Writing
    case WriteDone(ok) => p == if ok then Idle else Dropped
    case Unpend => p == Idle
    case Prune => p == Idle
    case Answer(_, _) => p == Idle
    case BrokerError(_, _) => p == Idle
    case Lose => p == Dropped
    case TakeSignal => p == Dropped
    case EndSession =>
      p == if s.halt.shuttingDown || s.halt.unread == 1 then Exiting else Backoff(None)
    case EndBackoff => p == if s.halt.unread > 0 then Exiting else Head
    case CheckHead => p == if s.halt.unread > 0 then Exiting else Passed
    case Dial => p == Dialing(Connecting)
    case Attempt(ok) =>
      p == if !ok then Backoff(Some(s.phase.stage))
           else if s.phase.stage.Connecting? then Dialing(Greeting)
           else if s.phase.stage.Greeting? then Dialing(Handshaking)
           else Fresh(true)
    case Exit => p == Done(s.reg.nextId)
    case Deliver(_, failed) =>
      if s.phase.m.sub.None? && s.phase.m.dest.None? then p == Idle else p.Sweeping? && p.failed == failed
    case Sweep => p == Failing(s.phase.failed)
    case FailOne(ok) =>
      p == if s.phase.failed == [] then Idle else if ok then Failing(s.phase.failed[1..]) else Dropped
    case _ => true
  }

  lemma TaskLeadsTo(s: State, e: TaskStep)
    requires TaskEnabled(s, e)
    ensures LeadsTo(s, e, TaskNext(s, e).phase)
  {
    hide Recorded, SessionEnded, Forgot, DoClean, DoDeliver, DoWake, DoPrune, DoFail, DoBrokerError, DoExit;
    hide AckTargets, Acking, Woken, Overrun, Disposed, Writable, DoArrive, DoCollect, DoWaken, DoTake;
    hide Distinct;
    if e.TakeSnapshot? {
      assert forall id :: id in RegisteredIds(s.reg) <==> id in s.reg.subs && s.reg.subs[id].registered;
      assert forall id | id in e.ids :: id in RegisteredIds(s.reg);
    }
  }

  lemma TaskSession(s: State, e: TaskStep)
    requires TaskEnabled(s, e)
    ensures TaskNext(s, e).session
         == s.session + if e.EndSession? && TaskNext(s, e).phase.Backoff? then 1 else 0
  {
    if e.Take? || e.WriteDone? {
      hide Lists, Woken, Overrun;
    } else if e.EndSession? {
      hide SessionEnded;
    } else {
      OtherDisposed(s, e);
      hide TaskNext;
    }
  }

  /** Over every run: where the task's sections lead it, and when a session is counted. */
  lemma TaskGoesOn(states: seq<State>, steps: seq<Step>, i: nat, e: TaskStep)
    requires IsRun(states, steps) && i < |steps| && |states| == |steps| + 1 && steps[i] == Io(e)
    ensures TaskEnabled(states[i], e) && LeadsTo(states[i], e, states[i + 1].phase)
    ensures states[i + 1].session
         == states[i].session + if e.EndSession? && states[i + 1].phase.Backoff? then 1 else 0
  {
    hide IsRun, TaskNext, TaskEnabled, LeadsTo;
    RunStep(states, steps, i);
    TaskLeadsTo(states[i], e);
    TaskSession(states[i], e);
  }

  /**
   * Over every run: a delivery pass of a MESSAGE that has somewhere to go is
   * followed by the sweep of the pending queues, before the task turns to
   * anything else.
   */
  lemma PassIsSwept(states: seq<State>, steps: seq<Step>, d: nat, u: nat)
    requires IsRun(states, steps) && d < u < |steps| && |states| == |steps| + 1
    requires steps[d].Io? && steps[d].i.Deliver? && states[d].phase.Delivering?
    requires states[d].phase.m.sub.Some? || states[d].phase.m.dest.Some?
    requires steps[u].Io? && forall k | d < k < u :: !steps[k].Io?
    ensures steps[u] == Io(Sweep)
  {
    TaskGoesOn(states, steps, d, steps[d].i);
    PhaseWaitsOn(states, steps, d + 1, u);
    RunStep(states, steps, u);
    hide IsRun, Next, Lists, Woken, Overrun;
  }

  // ---------------------------------------------------------------- a dial is checked first

  lemma PassedMoves(s: State, e: Step)
    requires Enabled(s, e) && Next(s, e).phase.Passed?
    ensures if e.Io? then e == Io(CheckHead) && s.halt.unread == 0 else Next(s, e).phase == s.phase
  {
    match e {
      case App(a) =>
        AppFrame(s, a);
        hide AppNext;
      case Io(i) => OnlyCheckPasses(s, i);
      case Net(n) =>
    }
  }

  lemma OnlyCheckPasses(s: State, e: TaskStep)
    requires TaskEnabled(s, e) && TaskNext(s, e).phase.Passed?
    ensures e.CheckHead? && s.halt.unread == 0
  {
    hide Recorded, SessionEnded, Forgot, DoClean, DoDeliver, DoWake, DoPrune, DoFail, DoBrokerError, DoExit;
    hide AckTargets, Acking, Lists, Woken, Overrun, Disposed, Writable, RegisteredIds, Registered;
  }

  /** Step `c` is the check at the loop head, finding no signal, and the task took no step from there up to `i`. */
  predicate CheckedAt(states: seq<State>, steps: seq<Step>, c: nat, i: nat)
    requires c < i <= |steps| && |states| == |steps| + 1
  {
    steps[c] == Io(CheckHead) && states[c].halt.unread == 0 && forall k | c < k < i :: !steps[k].Io?
  }

  lemma {:induction false} PassedChecked(states: seq<State>, steps: seq<Step>, i: nat)
    requires IsRun(states, steps) && i < |states| == |steps| + 1 && states[i].phase.Passed?
    ensures exists c | 0 <= c < i :: CheckedAt(states, steps, c, i)
  {
    hide IsRun, Next, Enabled;
    NotPassedAtFirst(states, steps);
    if i > 0 {
      RunStep(states, steps, i - 1);
      PassedMoves(states[i - 1], steps[i - 1]);
      if steps[i - 1].Io? {
        assert CheckedAt(states, steps, i - 1, i);
      } else {
        PassedChecked(states, steps, i - 1);
        var c :| 0 <= c < i - 1 && CheckedAt(states, steps, c, i - 1);
        assert CheckedAt(states, steps, c, i);
      }
    }
  }

  lemma NotPassedAtFirst(states: seq<State>, steps: seq<Step>)
    requires IsRun(states, steps)
    ensures |states| > 0 && !states[0].phase.Passed?
  {
    hide Enabled, Next;
  }

  /** Over every run: a connect attempt comes right behind a look for a signal that found none. */
  lemma DialsAreChecked(states: seq<State>, steps: seq<Step>, i: nat)
    requires IsRun(states, steps) && i < |steps| && |states| == |steps| + 1 && steps[i] == Io(Dial)
    ensures exists c | 0 <= c < i :: CheckedAt(states, steps, c, i)
  {
    RunStep(states, steps, i);
    hide IsRun, Next, Lists, Woken, Overrun;
    PassedChecked(states, steps, i);
  }

  // ---------------------------------------------------------------- never stuck

  /** Some list of these ids. */
  lemma {:induction false} CanList(ids: set<SubId>) returns (xs: seq<SubId>)
    ensures Lists(xs, ids)
    decreases ids
  {
    if ids == {} {
      xs := [];
    } else {
      var id :| id in ids;
      var rest := CanList(ids - {id});
      xs := [id] + rest;
      ListedMore(id, rest, ids);
    }
  }

  lemma ListedMore(id: SubId, rest: seq<SubId>, ids: set<SubId>)
    requires id in ids && Lists(rest, ids - {id})
    ensures Lists([id] + rest, ids)
  {
    var xs := [id] + rest;
    forall k | k in ids
      ensures k in xs
    {
      if k != id {
        assert k in rest;
        assert xs[1..] == rest;
      } else {
        assert xs[0] == id;
      }
    }
  }

  /** What the task can do between two items of work: write what waits, take in anything, look for a signal. */
  ghost predicate TakesAll(s: State) {
    && (Waits(s.wire) ==> TaskEnabled(s, Take))
    && (forall dest, sub, msgId, ackId :: TaskEnabled(s, Arrive(dest, sub, msgId, ackId)))
    && (forall r, ok :: TaskEnabled(s, Answer(r, ok)))
    && (forall dest, message :: TaskEnabled(s, BrokerError(dest, message)))
    && TaskEnabled(s, Prune) && TaskEnabled(s, Lose)
    && (s.halt.unread > 0 ==> TaskEnabled(s, TakeSignal))
  }

  /**
   * Over every run the task is never stuck: short of its end some section of it
   * can run; and between two items of work it can write what is queued, take in
   * whatever the broker sends, and take a signal.
   */
  lemma NeverStuck(states: seq<State>, steps: seq<Step>, i: nat)
    requires IsRun(states, steps) && i < |states|
    ensures states[i].phase.Done? || exists e :: TaskEnabled(states[i], e)
    ensures states[i].phase.Idle? ==> TakesAll(states[i])
  {
    RunSound(states, steps, i);
    var s := states[i];
    hide IsRun, Sound, TakesAll;
    SoundParts(s);
    if !s.phase.Done? {
      SomethingNext(s);
    }
    if s.phase.Idle? {
      IdleReady(s);
    }
  }

  lemma IdleReady(s: State)
    requires s.phase.Idle?
    ensures TakesAll(s)
  {
    hide Lists, Woken, Overrun;
  }

  lemma SomethingNext(s: State)
    requires PhaseGood(s) && !s.phase.Done?
    ensures exists e :: TaskEnabled(s, e)
  {
    if s.phase.Snapshot? {
      var ids := CanList(RegisteredIds(s.reg));
      assert TaskEnabled(s, TakeSnapshot(ids));
    } else if s.phase.Delivering? {
      var woken := CanList(Woken(s.reg, s.phase.m));
      var failed := CanList(Overrun(s.reg, s.phase.m));
      assert TaskEnabled(s, Deliver(woken, failed));
    } else {
      hide Lists, Woken, Overrun, RegisteredIds;
      assert TaskEnabled(s, Section(s.phase));
    }
  }

  /** A section that can run: the one the task is at, or between two items of work the loss of the connection. */
  function Section(p: Phase): TaskStep {
    match p
    case Boot => Start
    case Fresh(_) => Clean
    case Replaying(_) => ReplayOne(true)
    case Idle => Lose
    case Forgetting(_) => ForgetWritten
    case Writing => WriteDone(true)
    case Collecting(_) => Collect
    case Recording(_, _) => Record
    case Sweeping(_, _) => Sweep
    case Failing(_) => FailOne(true)
    case Unpending(_) => Unpend
    case Dropped => EndSession
    case Backoff(_) => EndBackoff
    case Head => CheckHead
    case Passed => Dial
    case Dialing(_) => Attempt(true)
    case _ => Exit
  }

  // ---------------------------------------------------------------- told to stop

  /** The pass fails this entry at its limit. */
  predicate FailsAt(states: seq<State>, steps: seq<Step>, d: nat, id: SubId)
    requires d < |steps| && |states| == |steps| + 1
  {
    && steps[d].Io? && steps[d].i.Deliver?
    && id in states[d].reg.subs && states[d].reg.subs[id].registered
    && id in states[d + 1].reg.subs && !states[d + 1].reg.subs[id].registered
    && states[d + 1].reg.subs[id].ended.Ended? && states[d + 1].reg.subs[id].ended.reason.OverLimit?
  }

  /** It is marked, or still on the list of those to mark. */
  predicate MarkedOrListed(s: State, id: SubId) {
    || id in s.reg.failedIds
    || (s.phase.Sweeping? && Listed(s.phase.failed, id))
    || (s.phase.Failing? && Listed(s.phase.failed, id))
  }

  predicate Listed(ids: seq<SubId>, id: SubId) {
    exists i | 0 <= i < |ids| :: ids[i] == id
  }

  /** A step at which telling the broker to stop for one of them fails, and the connection with it. */
  predicate CutShort(e: Step) {
    e == Io(FailOne(false))
  }

  lemma FailedIsListed(s: State, e: TaskStep, id: SubId)
    requires TaskEnabled(s, e) && e.Deliver? && RegGood(s.reg) && Registered(s.reg, id)
    requires var n := TaskNext(s, e).reg.subs;
             id in n && !n[id].registered && n[id].ended.Ended? && n[id].ended.reason.OverLimit?
    ensures MarkedOrListed(TaskNext(s, e), id)
  {
    var m := s.phase.m;
    assert SubGood(s.reg.subs[id]);
    OfferRefinesFifo(s.reg.subs[id].lane, m);
    hide Offered, WakeGood, Valid, Woken, RegisteredIds;
    assert id in Overrun(s.reg, m);
    assert id in e.failed;
    assert TaskNext(s, e).phase.Sweeping?;
  }

  lemma TaskMarks(s: State, e: TaskStep, id: SubId)
    requires TaskEnabled(s, e) && MarkedOrListed(s, id)
    ensures MarkedOrListed(TaskNext(s, e), id) || CutShort(Io(e))
  {
    match e {
      case FailOne(ok) =>
        var failed := s.phase.failed;
        assert forall i | 0 < i < |failed| :: failed[1..][i - 1] == failed[i];
      case Sweep => hide Forgot;
      case _ =>
        OtherMarks(s, e);
        hide TaskNext;
    }
  }

  lemma OtherMarks(s: State, e: TaskStep)
    requires TaskEnabled(s, e) && !e.FailOne? && !e.Sweep?
    ensures TaskNext(s, e).reg.failedIds == s.reg.failedIds && !s.phase.Sweeping? && !s.phase.Failing?
  {
    hide Recorded, SessionEnded, Forgot, RegisteredIds, Pruned, AckTargets, Acking, Lists, Woken, Overrun, Disposed;
    hide Writable, AfterOffer, AfterDrain, AfterClean, RemovedFor, Target;
  }

  lemma StepMarks(s: State, e: Step, id: SubId)
    requires Enabled(s, e) && MarkedOrListed(s, id)
    ensures MarkedOrListed(Next(s, e), id) || CutShort(e)
  {
    match e {
      case App(a) =>
        AppFrame(s, a);
        AppFailedIds(s, a);
        hide AppNext;
      case Io(i) =>
        TaskMarks(s, i, id);
        hide TaskNext;
      case Net(n) =>
    }
  }

  lemma AppFailedIds(s: State, a: AppStep)
    requires AppEnabled(s, a)
    ensures AppNext(s, a).reg.failedIds == s.reg.failedIds
  {
    hide Settled, Forgot, Find, RemovedFor, AfterClose, AfterReceive, NewLane, Registering, HandleClosed, Deregistered;
  }

  /**
   * Over every run: a subscription failed at its limit is marked, so that no
   * MESSAGE for it is handled again, before the task turns to anything else,
   * unless telling the broker to stop failed and ended the connection.
   */
  lemma {:induction false} FailedIsMarked(states: seq<State>, steps: seq<Step>, d: nat, j: nat, id: SubId)
    requires IsRun(states, steps) && d < j < |states| == |steps| + 1 && FailsAt(states, steps, d, id)
    ensures MarkedOrListed(states[j], id) || exists k | d < k < j :: CutShort(steps[k])
    decreases j
  {
    hide IsRun, Next, Enabled, Sound, MarkedOrListed, RegGood;
    RunSize(states, steps);
    RunStep(states, steps, j - 1);
    if j == d + 1 {
      RunSound(states, steps, d);
      SoundParts(states[d]);
      FailsListed(states[d], steps[d], id);
    } else {
      FailedIsMarked(states, steps, d, j - 1, id);
      if MarkedOrListed(states[j - 1], id) {
        StepMarks(states[j - 1], steps[j - 1], id);
      }
    }
  }

  lemma FailsListed(s: State, e: Step, id: SubId)
    requires Enabled(s, e) && e.Io? && e.i.Deliver? && RegGood(s.reg) && Registered(s.reg, id)
    requires var n := Next(s, e).reg.subs;
             id in n && !n[id].registered && n[id].ended.Ended? && n[id].ended.reason.OverLimit?
    ensures MarkedOrListed(Next(s, e), id)
  {
    hide TaskNext, TaskEnabled, RegGood, MarkedOrListed;
    FailedIsListed(s, e.i, id);
  }

  // ---------------------------------------------------------------- marks are made only so

  /** The step marks a subscription, and tries to tell the broker to stop. */
  predicate Marks(s: State, e: Step, id: SubId) {
    e.Io? && e.i.FailOne? && s.phase.Failing? && s.phase.failed != [] && s.phase.failed[0] == id
  }

  lemma StepMarksOnly(s: State, e: Step, id: SubId)
    requires Enabled(s, e)
    ensures id in Next(s, e).reg.failedIds <==> id in s.reg.failedIds || Marks(s, e, id)
  {
    match e {
      case App(a) =>
        AppFailedIds(s, a);
        hide AppNext;
      case Io(i) =>
        if i.FailOne? {
        } else {
          MarkedOnlyByFail(s, i);
          hide TaskNext;
        }
      case Net(n) =>
    }
  }

  lemma MarkedOnlyByFail(s: State, e: TaskStep)
    requires TaskEnabled(s, e) && !e.FailOne?
    ensures TaskNext(s, e).reg.failedIds == s.reg.failedIds
  {
    if e.Sweep? {
      hide Forgot;
    } else {
      OtherMarks(s, e);
      hide TaskNext;
    }
  }

  /** Over every run: exactly the subscriptions marked by some step are passed over when a MESSAGE names them. */
  lemma {:induction false} MarkedExactly(states: seq<State>, steps: seq<Step>, i: nat, id: SubId)
    requires IsRun(states, steps) && i < |states| == |steps| + 1
    ensures id in states[i].reg.failedIds <==> exists k | 0 <= k < i :: Marks(states[k], steps[k], id)
  {
    hide IsRun, Next, Enabled, Marks, INIT;
    RunSize(states, steps);
    if i == 0 {
      NoneMarkedAtFirst(states[0]);
    } else {
      MarkedExactly(states, steps, i - 1, id);
      RunStep(states, steps, i - 1);
      StepMarksOnly(states[i - 1], steps[i - 1], id);
    }
  }

  lemma NoneMarkedAtFirst(s: State)
    requires s == INIT
    ensures s.reg.failedIds == {}
  {
  }
}
