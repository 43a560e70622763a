/**
 * What the confirmations a client gets prove about what the broker has seen:
 * an item must have reached it exactly when no run with the same sections, in
 * which the broker is as honest, leaves the item out.
 */
module Evidence {
  import opened Options
  import opened Types
  import opened Lane
  import opened Registry
  import opened Ledger
  import opened Wire
  import opened Halt
  import opened Client
  import opened Invariant
  import opened Runs
  import opened Closing

  /** The first `i` steps without the broker's: what the client's tasks did. */
  function Course(steps: seq<Step>, i: nat): seq<Step>
    requires i <= |steps|
  {
    if i == 0 then []
    else Course(steps, i - 1) + if steps[i - 1].Net? then [] else [steps[i - 1]]
  }

  /** The state, but for what reached the broker. */
  function Reaching(s: State, reached: set<nat>): State {
    s.(wire := s.wire.(reached := reached))
  }

  /**
   * Step `j` is a RECEIPT that shows the item at `m`, written to the connection
   * of `d`, to have reached the broker: each frame the RECEIPT can be for is
   * that item or came behind it on the same connection.
   */
  ghost predicate Shows(states: seq<State>, steps: seq<Step>, j: nat, m: nat, d: Disposal)
    requires j < |steps| && |states| == |steps| + 1
  {
    && steps[j].Io? && steps[j].i.Answer? && steps[j].i.ok
    && forall k | Answerable(states[j].wire, k, steps[j].i.receipt) :: Behind(states[j].wire, k, m, d)
  }

  /** The item at `k` asks for the receipt, and was written. */
  predicate Answerable(w: Wire, k: nat, r: ReceiptId) {
    k < |w.disposed| && k < |w.queued| && !w.disposed[k].Stale? && Asks(w.queued[k], r)
  }

  /** The item at `k` is the one at `m`, or came behind it on its connection. */
  predicate Behind(w: Wire, k: nat, m: nat, d: Disposal) {
    k < |w.disposed| && SameSession(w.disposed[k], d) && m <= k
  }

  /** Whatever the broker made of these sections, if it confirmed honestly, the item reached it. */
  ghost predicate MustHaveReached(steps: seq<Step>, m: nat) {
    forall others: seq<State>, course: seq<Step> |
      IsRun(others, course) && |others| == |course| + 1 && Honest(others, course)
      && Course(course, |course|) == Course(steps, |steps|) ::
      m in others[|course|].wire.reached
  }

  // ---------------------------------------------------------------- no section looks at what reached the broker

  lemma AppIgnores(s: State, a: AppStep, reached: set<nat>)
    requires AppEnabled(s, a)
    ensures AppEnabled(Reaching(s, reached), a)
    ensures AppNext(Reaching(s, reached), a) == Reaching(AppNext(s, a), reached)
  {
    hide Settled, Forgot, Find, DoRegister, DoUnregister, DoClose, DoReceive, Registering, HandleClosed, Deregistered;
    hide Registered;
  }

  lemma TaskIgnores(s: State, e: TaskStep, reached: set<nat>)
    requires TaskEnabled(s, e)
    ensures TaskEnabled(Reaching(s, reached), e)
    ensures TaskNext(Reaching(s, reached), e) == Reaching(TaskNext(s, e), reached)
  {
    if e.ReplayOne? || e.Take? || e.WriteDone? {
      hide Writable, Lists, Woken, Overrun;
    } else {
      OthersIgnore(s, e, reached);
      hide TaskNext, TaskEnabled;
    }
  }

  lemma OthersIgnore(s: State, e: TaskStep, reached: set<nat>)
    requires TaskEnabled(s, e) && !e.ReplayOne? && !e.Take? && !e.WriteDone?
    ensures TaskEnabled(Reaching(s, reached), e)
    ensures TaskNext(Reaching(s, reached), e) == Reaching(TaskNext(s, e), reached)
  {
    hide Recorded, SessionEnded, Forgot, RegisteredIds, DoClean, DoDeliver, DoWake, DoPrune, DoFail, DoBrokerError;
    hide DoExit, AckTargets, Acking, Lists, Woken, Overrun, Looked, TryOk, Ready, Registered, Drained, Disposed;
    hide ErrorCount, Stopping, Dialled, PendOf, CanReach, Waits, DoLook, DoAttempt, DoArrive;
    ArriveIgnores(s, e, reached);
    LoopIgnores(s, e, reached);
  }

  lemma ArriveIgnores(s: State, e: TaskStep, reached: set<nat>)
    ensures e.Arrive? ==>
              var m := Incoming(s, e.dest, e.sub, e.msgId, e.ackId);
              DoArrive(Reaching(s, reached), m) == Reaching(DoArrive(s, m), reached)
  {
    hide AckTargets, Acking;
  }

  /** Nor do the places that look for the signal, and the dial. */
  lemma LoopIgnores(s: State, e: TaskStep, reached: set<nat>)
    ensures DoLook(Reaching(s, reached), Fresh(false)) == Reaching(DoLook(s, Fresh(false)), reached)
    ensures DoLook(Reaching(s, reached), Head) == Reaching(DoLook(s, Head), reached)
    ensures DoLook(Reaching(s, reached), Passed) == Reaching(DoLook(s, Passed), reached)
    ensures s.phase.Dialing? && e.Attempt? ==>
              var n := DoAttempt(s, s.phase.stage, e.ok);
              DoAttempt(Reaching(s, reached), s.phase.stage, e.ok) == Reaching(n, reached)
  {
  }

  lemma StepIgnores(s: State, e: Step, reached: set<nat>)
    requires Enabled(s, e) && !e.Net?
    ensures Enabled(Reaching(s, reached), e)
    ensures Next(Reaching(s, reached), e) == Reaching(Next(s, e), reached)
  {
    hide AppNext, TaskNext, AppEnabled, TaskEnabled;
    match e {
      case App(a) => AppIgnores(s, a, reached);
      case Io(i) => TaskIgnores(s, i, reached);
      case Net(_) =>
    }
  }

  // ---------------------------------------------------------------- the same sections lead to the same states

  lemma SameIgnoring(s: State, n: State, e: Step)
    requires Enabled(s, e) && Enabled(n, e) && !e.Net? && n == Reaching(s, n.wire.reached)
    ensures Next(n, e) == Reaching(Next(s, e), Next(n, e).wire.reached)
  {
    hide Enabled, Next;
    StepIgnores(s, e, n.wire.reached);
  }

  lemma NetOnlyReaches(s: State, e: Step)
    requires Enabled(s, e) && e.Net?
    ensures Next(s, e) == Reaching(s, Next(s, e).wire.reached)
  {
    hide CanReach;
  }

  /** Two runs whose sections are the same so far are in the same state, but for what reached the broker. */
  lemma {:induction false} SameCourse(states: seq<State>, steps: seq<Step>, i: nat,
                                      others: seq<State>, course: seq<Step>, j: nat)
    requires IsRun(states, steps) && |states| == |steps| + 1 && i <= |steps|
    requires IsRun(others, course) && |others| == |course| + 1 && j <= |course|
    requires Course(steps, i) == Course(course, j)
    ensures others[j] == Reaching(states[i], others[j].wire.reached)
    decreases i + j
  {
    hide IsRun, Enabled, Next, INIT;
    RunSize(states, steps);
    RunSize(others, course);
    if i > 0 && steps[i - 1].Net? {
      SameCourse(states, steps, i - 1, others, course, j);
      RunStep(states, steps, i - 1);
      NetOnlyReaches(states[i - 1], steps[i - 1]);
    } else if j > 0 && course[j - 1].Net? {
      SameCourse(states, steps, i, others, course, j - 1);
      RunStep(others, course, j - 1);
      NetOnlyReaches(others[j - 1], course[j - 1]);
    } else if i > 0 && j > 0 {
      LastOfCourse(steps, i, course, j);
      SameCourse(states, steps, i - 1, others, course, j - 1);
      RunStep(states, steps, i - 1);
      RunStep(others, course, j - 1);
      SameIgnoring(states[i - 1], others[j - 1], steps[i - 1]);
    }
  }

  lemma LastOfCourse(steps: seq<Step>, i: nat, course: seq<Step>, j: nat)
    requires 0 < i <= |steps| && 0 < j <= |course| && !steps[i - 1].Net? && !course[j - 1].Net?
    requires Course(steps, i) == Course(course, j)
    ensures steps[i - 1] == course[j - 1] && Course(steps, i - 1) == Course(course, j - 1)
  {
    var a, b := Course(steps, i - 1), Course(course, j - 1);
    assert Course(steps, i) == a + [steps[i - 1]] && Course(course, j) == b + [course[j - 1]];
    assert (a + [steps[i - 1]])[|a|] == (b + [course[j - 1]])[|b|];
    assert a == (a + [steps[i - 1]])[..|a|] && b == (b + [course[j - 1]])[..|b|];
  }

  /** Each section of the one run has its place in the other. */
  lemma {:induction false} PlaceInCourse(steps: seq<Step>, i: nat, course: seq<Step>, j: nat, k: nat) returns (l: nat)
    requires k < i <= |steps| && j <= |course| && !steps[k].Net? && Course(steps, i) == Course(course, j)
    ensures l < j && course[l] == steps[k] && Course(steps, k) == Course(course, l)
    decreases i + j
  {
    if steps[i - 1].Net? {
      l := PlaceInCourse(steps, i - 1, course, j, k);
    } else if j == 0 {
      assert false;
    } else if course[j - 1].Net? {
      l := PlaceInCourse(steps, i, course, j - 1, k);
    } else {
      LastOfCourse(steps, i, course, j);
      if k == i - 1 {
        l := j - 1;
      } else {
        l := PlaceInCourse(steps, i - 1, course, j - 1, k);
      }
    }
  }

  // ---------------------------------------------------------------- what is shown is so

  lemma ShownReached(states: seq<State>, steps: seq<Step>, j: nat, m: nat, d: Disposal,
                     others: seq<State>, course: seq<Step>)
    requires IsRun(states, steps) && |states| == |steps| + 1 && j < |steps|
    requires m < |states[|steps|].wire.disposed| && states[|steps|].wire.disposed[m] == d && !d.Stale?
    requires Shows(states, steps, j, m, d)
    requires IsRun(others, course) && |others| == |course| + 1 && Honest(others, course)
    requires Course(course, |course|) == Course(steps, |steps|)
    ensures m in others[|course|].wire.reached
  {
    hide IsRun, Honest, Course;
    var l := PlaceInCourse(steps, |steps|, course, |course|, j);
    SameCourse(states, steps, j, others, course, l);
    var r := steps[j].i.receipt;
    assert AskedAndReached(others[l], r) by { AnsweredHonestly(others, course, l, r); }
    var k :| k in others[l].wire.reached && k < |others[l].wire.queued| && Asks(others[l].wire.queued[k], r);
    ReachedConsistent(others, course, l);
    var w := others[l].wire;
    assert w.(reached := w.reached) == w;
    assert CanReach(w, k);
    assert Answerable(states[j].wire, k, r);
    assert Behind(states[j].wire, k, m, d);
    RunFollows(states, steps, j, |steps|);
    LogPrefix(states[j], states[|steps|], m);
    RunFollows(others, course, l, |course|);
    ReachGrows(others[l], others[|course|]);
  }

  lemma AnsweredHonestly(states: seq<State>, steps: seq<Step>, j: nat, r: ReceiptId)
    requires |states| == |steps| + 1 && Honest(states, steps) && j < |steps| && steps[j] == Io(Answer(r, true))
    ensures AskedAndReached(states[j], r)
  {
    hide AskedAndReached;
  }

  lemma LogPrefix(s: State, n: State, m: nat)
    requires Follows(s, n) && m < |s.wire.disposed|
    ensures m < |n.wire.disposed| && n.wire.disposed[m] == s.wire.disposed[m]
  {
    hide RegEvolves, BookKept, AnswersKept;
  }

  lemma ReachGrows(s: State, n: State)
    requires Follows(s, n)
    ensures s.wire.reached <= n.wire.reached
  {
    hide RegEvolves, BookKept, AnswersKept;
  }

  // ---------------------------------------------------------------- what is not shown may not be so

  /** Everything written so far, but for the item at `m` and what came behind it on its connection. */
  function Spared(w: Wire, m: nat, d: Disposal): set<nat> {
    set k: nat | k < |w.disposed| && !w.disposed[k].Stale? && !Behind(w, k, m, d)
  }

  /** A step disposes of one item at most. */
  lemma DisposesOne(s: State, e: Step)
    requires Enabled(s, e)
    ensures s.wire.disposed <= Next(s, e).wire.disposed && |Next(s, e).wire.disposed| <= |s.wire.disposed| + 1
  {
    match e {
      case App(a) =>
        AppFrame(s, a);
        hide AppNext;
      case Io(i) =>
        if i.Take? || i.WriteDone? {
          hide Lists, Woken, Overrun;
        } else {
          OtherDisposed(s, i);
          hide TaskNext;
        }
      case Net(_) =>
    }
  }

  /** One disposal more: what is spared is as before, or one item more, which the broker can come to. */
  lemma SparedMore(v: Wire, w: Wire, m: nat, d: Disposal)
    requires v.disposed <= w.disposed && |w.disposed| <= |v.disposed| + 1
    ensures var k, before := |v.disposed|, Spared(v, m, d);
            || Spared(w, m, d) == before
            || (Spared(w, m, d) == before + {k} && CanReach(w.(reached := before), k))
  {
    var k, before := |v.disposed|, Spared(v, m, d);
    assert forall i | 0 <= i < k :: v.disposed[i] == w.disposed[i];
    assert forall i: nat | i < k :: Behind(w, i, m, d) <==> Behind(v, i, m, d);
    if |w.disposed| == k + 1 && !w.disposed[k].Stale? && !Behind(w, k, m, d) {
      assert Spared(w, m, d) == before + {k};
      forall i | 0 <= i < k && SameSession(w.disposed[i], w.disposed[k])
        ensures i in before
      {
        assert !Behind(v, i, m, d);
      }
    } else {
      assert Spared(w, m, d) == before;
    }
  }

  /** As long as no RECEIPT shows it, the same sections may have left the item out. */
  lemma {:induction false} LeftOut(states: seq<State>, steps: seq<Step>, i: nat, m: nat, d: Disposal)
    returns (others: seq<State>, course: seq<Step>)
    requires IsRun(states, steps) && |states| == |steps| + 1 && i <= |steps|
    requires forall j | 0 <= j < i :: !Shows(states, steps, j, m, d)
    ensures IsRun(others, course) && |others| == |course| + 1 && Honest(others, course)
    ensures Course(course, |course|) == Course(steps, i)
    ensures others[|course|] == Reaching(states[i], Spared(states[i].wire, m, d))
  {
    hide IsRun, Honest, Enabled, Next, Shows, Spared;
    if i == 0 {
      others, course := [INIT], [];
      OutAtFirst(states, steps, m, d);
    } else {
      RunStep(states, steps, i - 1);
      var before, sections := LeftOut(states, steps, i - 1, m, d);
      others, course := OutStep(states, steps, i, m, d, before, sections);
    }
  }

  lemma OutAtFirst(states: seq<State>, steps: seq<Step>, m: nat, d: Disposal)
    requires IsRun(states, steps)
    ensures |states| > 0
    ensures IsRun([INIT], []) && Honest([INIT], [])
    ensures INIT == Reaching(states[0], Spared(states[0].wire, m, d))
  {
    hide Enabled, Next, AskedAndReached;
    assert Spared(INIT.wire, m, d) == {};
  }

  lemma OutStep(states: seq<State>, steps: seq<Step>, i: nat, m: nat, d: Disposal,
                before: seq<State>, sections: seq<Step>)
    returns (others: seq<State>, course: seq<Step>)
    requires 0 < i <= |steps| && |states| == |steps| + 1
    requires Enabled(states[i - 1], steps[i - 1]) && states[i] == Next(states[i - 1], steps[i - 1])
    requires !Shows(states, steps, i - 1, m, d)
    requires IsRun(before, sections) && |before| == |sections| + 1 && Honest(before, sections)
    requires Course(sections, |sections|) == Course(steps, i - 1)
    requires before[|sections|] == Reaching(states[i - 1], Spared(states[i - 1].wire, m, d))
    ensures IsRun(others, course) && |others| == |course| + 1 && Honest(others, course)
    ensures Course(course, |course|) == Course(steps, i)
    ensures others[|course|] == Reaching(states[i], Spared(states[i].wire, m, d))
  {
    hide IsRun, Honest, Enabled, Next, Spared, CanReach, Course, Shows;
    var s, e, n := states[i - 1], steps[i - 1], states[i];
    var was, now := Spared(s.wire, m, d), Spared(n.wire, m, d);
    CourseMore(steps, i);
    if e.Net? {
      others, course := before, sections;
      NetOnlyReaches(s, e);
      assert now == was by { SparedSame(s.wire, n.wire, m, d); }
    } else {
      StepIgnores(s, e, was);
      NotShown(states, steps, i - 1, m, d);
      var mid := Reaching(n, was);
      HonestMore(before, sections, e, mid);
      others, course := before + [mid], sections + [e];
      CourseOn(sections, e);
      DisposesOne(s, e);
      SparedMore(s.wire, n.wire, m, d);
      if now != was {
        others, course := NetMore(others, course, mid, |s.wire.disposed|);
      }
    }
  }

  /** The broker comes to one item more. */
  lemma NetMore(states: seq<State>, steps: seq<Step>, s: State, k: nat) returns (others: seq<State>, course: seq<Step>)
    requires IsRun(states, steps) && |states| == |steps| + 1 && Honest(states, steps)
    requires states[|steps|] == s && CanReach(s.wire, k)
    ensures IsRun(others, course) && |others| == |course| + 1 && Honest(others, course)
    ensures Course(course, |course|) == Course(steps, |steps|)
    ensures others[|course|] == Reaching(s, s.wire.reached + {k})
  {
    hide IsRun, Honest, CanReach, Course;
    var n := s.(wire := Processed(s.wire, k));
    HonestMore(states, steps, Net(k), n);
    others, course := states + [n], steps + [Net(k)];
    CourseOn(steps, Net(k));
  }

  lemma CourseMore(steps: seq<Step>, i: nat)
    requires 0 < i <= |steps|
    ensures Course(steps, i) == Course(steps, i - 1) + if steps[i - 1].Net? then [] else [steps[i - 1]]
  {
  }

  lemma CourseOn(steps: seq<Step>, e: Step)
    ensures Course(steps + [e], |steps + [e]|) == Course(steps, |steps|) + if e.Net? then [] else [e]
  {
    CourseSame(steps, steps + [e], |steps|);
  }

  lemma {:induction false} CourseSame(a: seq<Step>, b: seq<Step>, i: nat)
    requires a <= b && i <= |a|
    ensures Course(a, i) == Course(b, i)
  {
    if i > 0 {
      CourseSame(a, b, i - 1);
    }
  }

  lemma SparedSame(v: Wire, w: Wire, m: nat, d: Disposal)
    requires v.disposed == w.disposed
    ensures Spared(v, m, d) == Spared(w, m, d)
  {
    assert forall k: nat :: Behind(v, k, m, d) == Behind(w, k, m, d);
    hide Behind;
  }

  /** A RECEIPT that does not show it may be for an item that was spared. */
  lemma NotShown(states: seq<State>, steps: seq<Step>, j: nat, m: nat, d: Disposal)
    requires j < |steps| && |states| == |steps| + 1 && !Shows(states, steps, j, m, d)
    ensures steps[j].Io? && steps[j].i.Answer? && steps[j].i.ok ==>
              AskedAndReached(Reaching(states[j], Spared(states[j].wire, m, d)), steps[j].i.receipt)
  {
    if steps[j].Io? && steps[j].i.Answer? && steps[j].i.ok {
      var w := states[j].wire;
      var k :| Answerable(w, k, steps[j].i.receipt) && !Behind(w, k, m, d);
      assert k in Spared(w, m, d);
    }
  }

  // ---------------------------------------------------------------- exactly

  /**
   * Over every run: the RECEIPTs that came prove of an item that was written
   * that it reached the broker, if and only if one of them was for a frame that
   * is the item or came behind it on its connection. For any other item there
   * is a run with the same sections, those same RECEIPTs among them, against a
   * broker just as honest, that the item never reached.
   */
  lemma ConfirmationsProveExactly(states: seq<State>, steps: seq<Step>, m: nat)
    requires IsRun(states, steps) && |states| == |steps| + 1
    requires m < |states[|steps|].wire.disposed| && !states[|steps|].wire.disposed[m].Stale?
    ensures MustHaveReached(steps, m)
            <==> exists j | 0 <= j < |steps| :: Shows(states, steps, j, m, states[|steps|].wire.disposed[m])
  {
    hide IsRun, Honest, Shows, Course;
    var d := states[|steps|].wire.disposed[m];
    if j :| 0 <= j < |steps| && Shows(states, steps, j, m, d) {
      forall others: seq<State>, course: seq<Step> |
        IsRun(others, course) && |others| == |course| + 1 && Honest(others, course)
        && Course(course, |course|) == Course(steps, |steps|)
        ensures m in others[|course|].wire.reached
      {
        ShownReached(states, steps, j, m, d, others, course);
      }
    } else {
      var others, course := LeftOut(states, steps, |steps|, m, d);
      assert Behind(states[|steps|].wire, m, m, d);
      assert m !in others[|course|].wire.reached;
    }
  }

  /**
   * The RECEIPT for a DISCONNECT, say, whose id no frame of the caller's own
   * carries, shows of an item that it reached the broker exactly when the item
   * was not queued behind the DISCONNECT and was written to its connection.
   */
  lemma CloseShowsExactly(states: seq<State>, steps: seq<Step>, j: nat, r: ReceiptId, n: nat, m: nat)
    requires IsRun(states, steps) && |states| == |steps| + 1 && j < |steps| && steps[j] == Io(Answer(r, true))
    requires m < |states[|steps|].wire.disposed| && !states[|steps|].wire.disposed[m].Stale?
    requires n < |states[j].wire.queued| && states[j].wire.queued[n] == Plain(Some(r))
    requires n < |states[j].wire.disposed| && !states[j].wire.disposed[n].Stale?
    requires forall k | 0 <= k < |states[j].wire.queued| :: states[j].wire.queued[k] != Own(r)
    ensures Shows(states, steps, j, m, states[|steps|].wire.disposed[m])
            <==> m <= n && SameSession(states[|steps|].wire.disposed[m], states[j].wire.disposed[n])
  {
    hide IsRun;
    var w := states[j].wire;
    assert Answerable(w, n, r);
    forall k: nat | Answerable(w, k, r)
      ensures k == n
    {
      if k < n {
        OneFramePerReceipt(states, steps, j, k, n);
      } else if n < k {
        OneFramePerReceipt(states, steps, j, n, k);
      }
    }
  }
}
