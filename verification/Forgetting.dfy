/** Exactly what each section records in the pending queues and the book, names, and forgets. */
module Forgetting {
  import opened Options
  import opened Types
  import opened Registry
  import opened Ledger
  import opened Wire
  import opened Client
  import opened Invariant
  import opened Delivery
  import opened Acks
  import opened Runs

  /**
   * From `l` to `n` the pending queues of `ids` are gone, what was outstanding
   * under them is forgotten for this reason, and nothing else changed.
   */
  ghost predicate Forgets(l: Ledger, n: Ledger, ids: set<SubId>, why: Reason) {
    && (forall id | id in ids :: id !in n.pending)
    && (forall id | id !in ids :: (id in n.pending <==> id in l.pending))
    && (forall id | id in n.pending :: id in l.pending && n.pending[id] == l.pending[id])
    && n.book.Keys == l.book.Keys
    && (forall k | k in l.book ::
          n.book[k] == if k.sub in ids && l.book[k].fate == Outstanding
                       then Line(l.book[k].pend, Forgotten(why)) else l.book[k])
  }

  /** From `l` to `n` one delivery is recorded under each of `ids`, behind what is pending; nothing else changed. */
  ghost predicate Records(l: Ledger, n: Ledger, ids: set<SubId>, p: Pend) {
    && (forall id | id in ids ::
          && QueueOf(n.pending, id) == QueueOf(l.pending, id) + [p]
          && Key(id, p.serial) in n.book && n.book[Key(id, p.serial)] == Line(p, Outstanding))
    && (forall id | id !in ids :: QueueOf(n.pending, id) == QueueOf(l.pending, id))
    && (forall k | k in l.book :: k in n.book && ((k.sub in ids && k.serial == p.serial) || n.book[k] == l.book[k]))
    && (forall k | k in n.book :: k in l.book || (k.sub in ids && k.serial == p.serial))
  }

  /** The entry a token names: the first whose `ack` value it is, or without one the first whose `message-id` it is. */
  predicate Names(q: seq<Pend>, pos: nat, named: Token) {
    && pos < |q|
    && ((q[pos].ackId == named && forall j | 0 <= j < pos :: q[j].ackId != named)
        || (q[pos].msgId == named && (forall j | 0 <= j < |q| :: q[j].ackId != named)
            && forall j | 0 <= j < pos :: q[j].msgId != named))
  }

  predicate NoneNamed(q: seq<Pend>, named: Token) {
    forall j | 0 <= j < |q| :: q[j].ackId != named && q[j].msgId != named
  }

  /**
   * From `l` to `n` the entry at `pos` of the queue of `sub` is named, and for a
   * cumulative acknowledgement those before it are covered; the entries behind
   * it stay, and for an individual one those before it. Nothing else changed.
   */
  ghost predicate Settles(l: Ledger, n: Ledger, sub: SubId, pos: nat, cumulative: bool)
    requires pos < |QueueOf(l.pending, sub)|
  {
    var q := QueueOf(l.pending, sub);
    && QueueOf(n.pending, sub) == (if cumulative then [] else q[..pos]) + q[pos + 1..]
    && (QueueOf(n.pending, sub) == [] ==> sub !in n.pending)
    && (forall id | id != sub :: (id in n.pending <==> id in l.pending))
    && (forall id | id != sub && id in n.pending :: id in l.pending && n.pending[id] == l.pending[id])
    && n.book.Keys == l.book.Keys
    && (forall k | k in l.book && k.sub != sub :: n.book[k] == l.book[k])
    && (forall j | 0 <= j < |q| ::
          && Key(sub, q[j].serial) in n.book
          && n.book[Key(sub, q[j].serial)]
             == Line(q[j], if j == pos then Named else if j < pos && cumulative then Covered else Outstanding))
    && (forall k | k in l.book && l.book[k].fate != Outstanding :: n.book[k] == l.book[k])
  }

  // ---------------------------------------------------------------- the functions have these effects

  lemma ForgotForgets(l: Ledger, ids: set<SubId>, why: Reason)
    ensures Forgets(l, Forgot(l, ids, why), ids, why)
  {
  }

  lemma EndedForgets(l: Ledger)
    ensures Forgets(l, SessionEnded(l), l.pending.Keys, SessionOver)
  {
    ForgotForgets(l, l.pending.Keys, SessionOver);
  }

  lemma RecordedRecords(l: Ledger, ids: set<SubId>, p: Pend)
    ensures Records(l, Recorded(l, ids, p), ids, p)
  {
    var n := Recorded(l, ids, p);
    forall id | id in ids
      ensures Key(id, p.serial) in n.book && n.book[Key(id, p.serial)] == Line(p, Outstanding)
    {
      assert Key(id, p.serial) in (set k | k in ids :: Key(k, p.serial));
    }
  }

  lemma FindIsNames(q: seq<Pend>, named: Token)
    ensures Find(q, named) < |q| ==> Names(q, Find(q, named), named)
    ensures Find(q, named) == |q| <==> NoneNamed(q, named)
  {
  }

  lemma SettledSettles(l: Ledger, session: nat, bound: nat, sub: SubId, pos: nat, cumulative: bool)
    requires LedgerGood(l, session, bound) && pos < |QueueOf(l.pending, sub)|
    ensures Settles(l, Settled(l, sub, pos, cumulative), sub, pos, cumulative)
  {
    var q := QueueOf(l.pending, sub);
    assert QueueGood(l, sub, q, session);
    var n := Settled(l, sub, pos, cumulative);
    forall j | 0 <= j < |q|
      ensures Key(sub, q[j].serial) in n.book
      ensures n.book[Key(sub, q[j].serial)]
           == Line(q[j], if j == pos then Named else if j < pos && cumulative then Covered else Outstanding)
    {
      assert Outstands(l, sub, q[j]);
    }
    assert Outstands(l, sub, q[pos]);
    hide LedgerGood, QueueGood, Find;
  }

  // ---------------------------------------------------------------- section by section

  /** What a section of an application task does to the ledger. */
  ghost predicate AppLedger(s: State, a: AppStep, n: Ledger)
    requires AppEnabled(s, a)
  {
    match a
    case UnsubForget(t) => Forgets(s.ledger, n, {s.ops[t].id}, Unsubscribing)
    case DropForget(t, locked) => if locked then Forgets(s.ledger, n, {s.ops[t].id}, HandleDropped) else n == s.ledger
    case Settle(t) =>
      var q := QueueOf(s.ledger.pending, s.ops[t].sub);
      if NoneNamed(q, s.ops[t].named) then n == s.ledger
      else exists pos | 0 <= pos < |q| ::
        && Names(q, pos, s.ops[t].named)
        && Settles(s.ledger, n, s.ops[t].sub, pos,
                   s.ops[t].managed == None || s.ops[t].managed == Some(Cumulative))
    case _ => n == s.ledger
  }

  /** What a section of the I/O task does to the ledger. */
  ghost predicate TaskLedgerMove(s: State, e: TaskStep, n: State)
    requires TaskEnabled(s, e)
  {
    match e
    case ForgetWritten => Forgets(s.ledger, n.ledger, {s.phase.id}, UnsubscribeSent)
    case Unpend => Forgets(s.ledger, n.ledger, {s.phase.id}, ReceiverGone)
    case Sweep => Forgets(s.ledger, n.ledger, s.ledger.pending.Keys - s.phase.live, Swept)
    case Record => s.phase.m.msgId.Some? && Records(s.ledger, n.ledger, s.phase.targets, PendOf(s.phase.m))
    case EndSession =>
      if n.session == s.session then n.ledger == s.ledger
      else Forgets(s.ledger, n.ledger, s.ledger.pending.Keys, SessionOver)
    case _ => n.ledger == s.ledger
  }

  lemma AppLedgerIs(s: State, a: AppStep)
    requires AppEnabled(s, a) && LedgerPart(s)
    ensures AppLedger(s, a, AppNext(s, a).ledger)
  {
    hide LedgerPart, Forgets, Settled, Forgot, Find, Settles, Names;
    match a {
      case UnsubForget(t) => ForgotForgets(s.ledger, {s.ops[t].id}, Unsubscribing);
      case DropForget(t, locked) => ForgotForgets(s.ledger, {s.ops[t].id}, HandleDropped);
      case Settle(t) => SettleIs(s, t, s.ops[t]);
      case _ => AppPlainLedger(s, a);
    }
  }

  lemma SettleIs(s: State, t: Tid, op: Op)
    requires t in s.ops && s.ops[t] == op && op.Settling? && LedgerPart(s)
    ensures AppEnabled(s, Settle(t)) && AppLedger(s, Settle(t), AppNext(s, Settle(t)).ledger)
  {
    var q := QueueOf(s.ledger.pending, op.sub);
    var pos := Find(q, op.named);
    FindIsNames(q, op.named);
    if pos < |q| {
      SettledSettles(s.ledger, s.session, LedgerBound(s), op.sub, pos, IsCumulative(op.managed));
    }
    hide LedgerPart, Settled, Find, Settles, Names, LedgerGood;
  }

  lemma TaskLedgerIs(s: State, e: TaskStep)
    requires TaskEnabled(s, e) && PhaseGood(s)
    ensures TaskLedgerMove(s, e, TaskNext(s, e))
  {
    hide Forgets, Records, Forgot, Recorded, SessionEnded;
    match e {
      case ForgetWritten => ForgotForgets(s.ledger, {s.phase.id}, UnsubscribeSent);
      case Unpend => ForgotForgets(s.ledger, {s.phase.id}, ReceiverGone);
      case Sweep => ForgotForgets(s.ledger, s.ledger.pending.Keys - s.phase.live, Swept);
      case Record => RecordedRecords(s.ledger, s.phase.targets, PendOf(s.phase.m));
      case EndSession => EndedForgets(s.ledger);
      case _ => PlainLedger(s, e);
    }
  }

  /**
   * Over every run, for every step: which pending queues and which lines of the
   * book change, and how. Unsubscribing, dropping a handle that gets the lock,
   * writing an UNSUBSCRIBE, finding a receiver gone, the sweep and the end of a
   * session forget exactly what is pending for the subscriptions they are
   * about; recording adds at the back; settling names one and covers those
   * before it. Nothing else touches them.
   */
  lemma LedgerMoves(states: seq<State>, steps: seq<Step>, i: nat)
    requires IsRun(states, steps) && i < |steps| && |states| == |steps| + 1
    ensures Enabled(states[i], steps[i])
    ensures match steps[i]
            case App(a) => AppLedger(states[i], a, states[i + 1].ledger)
            case Io(e) => TaskLedgerMove(states[i], e, states[i + 1])
            case Net(_) => states[i + 1].ledger == states[i].ledger
  {
    hide IsRun, Sound, AppNext, TaskNext, AppLedger, TaskLedgerMove, AppEnabled, TaskEnabled;
    hide RegGood, PhaseGood, LedgerPart, OpsPart, HistoryPart, NamedOnce;
    RunStep(states, steps, i);
    RunSound(states, steps, i);
    SoundParts(states[i]);
    match steps[i] {
      case App(a) => AppLedgerIs(states[i], a);
      case Io(e) => TaskLedgerIs(states[i], e);
      case Net(_) =>
    }
  }

  /** In particular an `unsubscribe` leaves nothing pending behind, before its UNSUBSCRIBE is even queued. */
  lemma UnsubscribeLeavesNothing(states: seq<State>, steps: seq<Step>, i: nat, t: Tid, id: SubId)
    requires IsRun(states, steps) && i < |steps| && |states| == |steps| + 1
    requires steps[i] == App(UnsubForget(t)) && t in states[i].ops && states[i].ops[t] == UnsubForgetting(id)
    ensures id !in states[i + 1].ledger.pending
    ensures forall k | k in states[i + 1].ledger.book && k.sub == id :: states[i + 1].ledger.book[k].fate != Outstanding
    ensures t in states[i + 1].ops && states[i + 1].ops[t] == Sending(Unsubscribe(id))
  {
    LedgerMoves(states, steps, i);
    RunStep(states, steps, i);
    hide IsRun;
  }
}
