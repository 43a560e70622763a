/** A shutdown signal, once sent, ends the I/O task: what may still happen before it does, exactly. */
module Shutdown {
  import opened Options
  import opened Types
  import opened Registry
  import opened Ledger
  import opened Wire
  import opened Halt
  import opened Client
  import opened Invariant

  /**
   * A signal that was sent is unread, or the task has taken it and is shutting
   * down, or the task is on its way out; and its flag is up only then.
   */
  predicate SignalKept(s: State) {
    && (s.halt.sent > 0 ==> s.halt.unread > 0 || s.halt.shuttingDown || s.phase.Exiting? || s.phase.Done?)
    && (s.halt.shuttingDown ==> s.phase.Dropped? || s.phase.Exiting? || s.phase.Done?)
  }

  /** What one step does to the signal, the dials and the session, once a signal was sent. */
  predicate HaltMove(s: State, e: Step, n: State) {
    && n.halt.dials == s.halt.dials + (if e.Io? && s.phase.Passed? then 1 else 0)
    && (n.phase.Passed? <==> s.phase.Passed? && !e.Io?)
    && n.session == s.session + (if e == Io(EndSession) && !s.halt.shuttingDown && s.halt.unread >= 2 then 1 else 0)
    && (n.session != s.session ==> n.phase.Backoff?)
    && (s.phase.Backoff? && e.Io? ==> n.phase.Exiting?)
    && (s.phase.Backoff? || s.phase.Exiting? || s.phase.Done? ==> n.session == s.session)
    && (s.phase.Backoff? && !e.Io? ==> n.phase == s.phase)
    && (s.phase.Exiting? || s.phase.Done? ==> n.phase.Exiting? || n.phase.Done?)
  }

  lemma StepHalt(s: State, e: Step)
    requires Enabled(s, e) && SignalKept(s)
    ensures SignalKept(Next(s, e)) && s.halt.sent <= Next(s, e).halt.sent
    ensures s.halt.sent > 0 ==> HaltMove(s, e, Next(s, e))
  {
    match e {
      case App(a) =>
        AppFrame(s, a);
        AppHalt(s, a);
        hide AppNext;
      case Io(i) =>
        if i.Start? || i.TakeSignal? || i.EndSession? || i.EndBackoff? || i.CheckHead? || i.Dial? || i.Attempt? {
          LoopHalt(s, i);
        } else {
          ConnHalt(s, i);
          hide TaskNext;
        }
      case Net(n) =>
    }
  }

  lemma LoopHalt(s: State, e: TaskStep)
    requires TaskEnabled(s, e) && SignalKept(s)
    requires e.Start? || e.TakeSignal? || e.EndSession? || e.EndBackoff? || e.CheckHead? || e.Dial? || e.Attempt?
    ensures SignalKept(TaskNext(s, e)) && s.halt.sent <= TaskNext(s, e).halt.sent
    ensures s.halt.sent > 0 ==> HaltMove(s, Io(e), TaskNext(s, e))
  {
    hide SessionEnded;
  }

  /** Sections on a connection, and the exit, do not look at the signal. */
  lemma ConnHalt(s: State, e: TaskStep)
    requires TaskEnabled(s, e)
    requires !e.Start? && !e.TakeSignal? && !e.EndSession? && !e.EndBackoff? && !e.CheckHead? && !e.Dial? && !e.Attempt?
    ensures var n := TaskNext(s, e);
            && n.halt == s.halt && n.session == s.session
            && !s.phase.Passed? && !n.phase.Passed? && !s.phase.Backoff?
            && (s.phase.Exiting? ==> n.phase.Done?) && !s.phase.Done? && !s.phase.Dropped?
  {
    hide Recorded, Forgot, RegisteredIds;
    hide DoClean, DoDeliver, DoWake, DoPrune, DoFail, DoBrokerError, DoExit;
    hide AckTargets, Lists, Woken, Overrun, Disposed;
  }

  lemma AppHalt(s: State, e: AppStep)
    requires AppEnabled(s, e)
    ensures AppNext(s, e).halt == if e.Signal? then Signalled(s.halt) else s.halt
  {
    hide Settled, Forgot, Find, DoRegister, DoUnregister, DoClose, DoReceive, Registering, HandleClosed, Deregistered;
  }

  /** Over every run: no signal is ever lost, whichever of the places that look for one consumes it. */
  lemma {:induction false} SignalNeverLost(states: seq<State>, steps: seq<Step>, i: nat)
    requires IsRun(states, steps) && i < |states|
    ensures SignalKept(states[i])
  {
    hide IsRun, Next, Enabled;
    RunSize(states, steps);
    if i > 0 {
      SignalNeverLost(states, steps, i - 1);
      RunStep(states, steps, i - 1);
      StepHalt(states[i - 1], steps[i - 1]);
      hide SignalKept;
    }
  }

  /** The I/O task took a step between these states. */
  predicate TaskMoved(steps: seq<Step>, i: nat, j: nat)
    requires i <= j <= |steps|
  {
    exists k | i <= k < j :: steps[k].Io?
  }

  lemma NotMoved(steps: seq<Step>, i: nat)
    requires i <= |steps|
    ensures !TaskMoved(steps, i, i)
  {
  }

  lemma MovedMore(steps: seq<Step>, i: nat, j: nat)
    requires i < j <= |steps|
    ensures TaskMoved(steps, i, j) <==> TaskMoved(steps, i, j - 1) || steps[j - 1].Io?
  {
    if TaskMoved(steps, i, j - 1) {
      var k :| i <= k < j - 1 && steps[k].Io?;
      assert steps[k].Io?;
    }
  }

  /**
   * After a signal was sent at most one connect attempt begins, and it does
   * exactly when the check at the loop head had already been passed and the
   * task goes on from there.
   */
  lemma {:induction false} OneDialAfterSignal(states: seq<State>, steps: seq<Step>, i: nat, j: nat)
    requires IsRun(states, steps) && i <= j < |states| && states[i].halt.sent > 0
    ensures states[j].halt.sent > 0
    ensures states[j].halt.dials
         == states[i].halt.dials + (if states[i].phase.Passed? && TaskMoved(steps, i, j) then 1 else 0)
    ensures states[j].phase.Passed? <==> states[i].phase.Passed? && !TaskMoved(steps, i, j)
    decreases j
  {
    hide IsRun, SignalKept, Next, Enabled, TaskMoved;
    RunSize(states, steps);
    if i < j {
      OneDialAfterSignal(states, steps, i, j - 1);
      SignalNeverLost(states, steps, j - 1);
      RunStep(states, steps, j - 1);
      StepHalt(states[j - 1], steps[j - 1]);
      MovedMore(steps, i, j);
    } else {
      NotMoved(steps, i);
    }
  }

  /** What a state has to be for the task to be past its last session. */
  predicate Leaving(p: Phase) {
    p.Backoff? || p.Exiting? || p.Done?
  }

  /**
   * After a signal was sent at most one more session is counted, and then the
   * backoff behind it is where the task stops.
   */
  lemma {:induction false} OneSessionAfterSignal(states: seq<State>, steps: seq<Step>, i: nat, j: nat)
    requires IsRun(states, steps) && i <= j < |states| && states[i].halt.sent > 0
    ensures states[j].halt.sent > 0
    ensures states[j].session == states[i].session
         || (states[j].session == states[i].session + 1 && Leaving(states[j].phase))
    decreases j
  {
    hide IsRun, SignalKept, Next, Enabled;
    RunSize(states, steps);
    if i < j {
      OneSessionAfterSignal(states, steps, i, j - 1);
      SignalNeverLost(states, steps, j - 1);
      RunStep(states, steps, j - 1);
      StepHalt(states[j - 1], steps[j - 1]);
    }
  }

  /**
   * A dropped connection after a signal leads straight to the exit, unless the
   * task had not taken it and two or more were unread: then `try_recv` reports
   * the lost ones, the session is counted, and the backoff finds the last.
   */
  lemma DropAfterSignal(states: seq<State>, steps: seq<Step>, i: nat)
    requires IsRun(states, steps) && i < |steps| && steps[i] == Io(EndSession) && states[i].halt.sent > 0
    ensures var lagged := !states[i].halt.shuttingDown && states[i].halt.unread >= 2;
            && (states[i + 1].phase.Exiting? <==> !lagged)
            && (states[i + 1].session == states[i].session + 1 <==> lagged)
            && (lagged ==> states[i + 1].phase == Backoff(None) && states[i + 1].halt.unread == 1)
  {
    SignalNeverLost(states, steps, i);
    assert Enabled(states[i], steps[i]) && states[i + 1] == Next(states[i], steps[i]);
    hide IsRun, SessionEnded;
  }
}
