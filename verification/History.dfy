/** What a consumer sees against what its subscription accepted, over any number of sessions. */
module History {
  import opened Lane
  import opened Entry
  import opened Types
  import opened Registry

  /** Received, then in the channel, then parked. */
  function View(sub: Sub): seq<Message> {
    sub.received + Contents(sub.lane)
  }

  /** The messages of one session, in order. */
  function Of(xs: seq<Message>, session: nat): seq<Message> {
    if xs == [] then []
    else Of(xs[..|xs| - 1], session) + if xs[|xs| - 1].session == session then [xs[|xs| - 1]] else []
  }

  /** No message twice, sessions in order, nothing from the future. */
  predicate Ordered(xs: seq<Message>, session: nat, bound: nat) {
    && (forall i | 0 <= i < |xs| :: xs[i].serial < bound && xs[i].session <= session)
    && (forall i, j | 0 <= i < j < |xs| :: xs[i].serial < xs[j].serial && xs[i].session <= xs[j].session)
  }

  /** An `auto` subscription loses nothing while it is registered, and never reorders. */
  predicate AutoGood(sub: Sub) {
    View(sub) <= sub.accepted && (sub.registered ==> View(sub) == sub.accepted)
  }

  /** A client-mode one keeps, of each session, a prefix; all of the current one while it is registered. */
  ghost predicate ClientGood(sub: Sub, session: nat) {
    && (forall past: nat :: Of(View(sub), past) <= Of(sub.accepted, past))
    && (sub.registered ==> Of(View(sub), session) == Of(sub.accepted, session))
  }

  ghost predicate HistoryGood(sub: Sub, session: nat, bound: nat) {
    && Ordered(sub.accepted, session, bound)
    && Ordered(View(sub), session, bound)
    && if sub.mode == Auto then AutoGood(sub) else ClientGood(sub, session)
  }

  /** Nothing was accepted in this session so far. */
  predicate NothingYet(sub: Sub, session: nat) {
    forall i | 0 <= i < |sub.accepted| :: sub.accepted[i].session < session
  }

  // ---------------------------------------------------------------- one subscription

  lemma {:induction false} OfPrefix(a: seq<Message>, b: seq<Message>, session: nat)
    requires a <= b
    ensures Of(a, session) <= Of(b, session)
    decreases |b|
  {
    if |a| < |b| {
      assert a <= b[..|b| - 1];
      OfPrefix(a, b[..|b| - 1], session);
    } else {
      assert a == b;
    }
  }

  lemma OfPush(a: seq<Message>, m: Message, session: nat)
    ensures Of(a + [m], session) == Of(a, session) + if m.session == session then [m] else []
  {
    assert (a + [m])[..|a|] == a;
  }

  lemma {:induction false} OfNone(a: seq<Message>, session: nat)
    requires forall i | 0 <= i < |a| :: a[i].session < session
    ensures Of(a, session) == []
  {
    if a != [] {
      OfNone(a[..|a| - 1], session);
    }
  }

  lemma SameHistory(a: Sub, b: Sub, session: nat, bound: nat)
    requires HistoryGood(a, session, bound)
    requires View(b) == View(a) && b.accepted == a.accepted && b.mode == a.mode && (b.registered ==> a.registered)
    ensures HistoryGood(b, session, bound)
  {
    hide Ordered, Of, View;
  }

  /** What a removed subscription still had parked is dropped. */
  lemma ShorterHistory(a: Sub, b: Sub, session: nat, bound: nat)
    requires HistoryGood(a, session, bound)
    requires View(b) <= View(a) && b.accepted == a.accepted && b.mode == a.mode && !b.registered
    ensures HistoryGood(b, session, bound)
  {
    hide Of, View;
    OrderedPrefix(View(b), View(a), session, bound);
    forall past: nat
      ensures Of(View(b), past) <= Of(View(a), past)
    {
      OfPrefix(View(b), View(a), past);
    }
    hide Ordered;
    if a.mode != Auto {
      forall past: nat
        ensures Of(View(b), past) <= Of(b.accepted, past)
      {
        assert Of(View(b), past) <= Of(View(a), past) <= Of(a.accepted, past);
      }
    }
  }

  lemma OrderedPrefix(a: seq<Message>, b: seq<Message>, session: nat, bound: nat)
    requires a <= b && Ordered(b, session, bound)
    ensures Ordered(a, session, bound)
  {
  }

  lemma OrderedPush(a: seq<Message>, m: Message, bound: nat)
    requires Ordered(a, m.session, bound) && bound <= m.serial
    ensures Ordered(a + [m], m.session, m.serial + 1)
  {
  }

  /** A message of the current session is accepted at the back. */
  lemma LongerHistory(a: Sub, b: Sub, m: Message, bound: nat)
    requires HistoryGood(a, m.session, bound) && a.registered && bound <= m.serial
    requires View(b) == View(a) + [m] && b.accepted == a.accepted + [m] && b.mode == a.mode
    ensures HistoryGood(b, m.session, m.serial + 1)
  {
    hide View, Of;
    OrderedPush(View(a), m, bound);
    OrderedPush(a.accepted, m, bound);
    hide Ordered;
    if a.mode != Auto {
      forall past: nat
        ensures Of(View(b), past) <= Of(b.accepted, past)
        ensures past == m.session ==> Of(View(b), past) == Of(b.accepted, past)
      {
        OfPush(View(a), m, past);
        OfPush(a.accepted, m, past);
      }
    }
  }

  /** Before a session delivers anything, a client-mode subscription drops what it had parked. */
  lemma CleanHistory(sub: Sub, session: nat, bound: nat)
    requires HistoryGood(sub, session, bound) && NothingYet(sub, session)
    ensures HistoryGood(AfterClean(sub), session, bound)
  {
    var n := AfterClean(sub);
    assert View(n) <= View(sub);
    assert n == sub || n.mode != Auto;
    hide View, Of;
    OrderedPrefix(View(n), View(sub), session, bound);
    OfNone(sub.accepted, session);
    forall past: nat
      ensures Of(View(n), past) <= Of(View(sub), past)
    {
      OfPrefix(View(n), View(sub), past);
    }
    hide Ordered, AfterClean;
    if sub.mode != Auto {
      forall past: nat
        ensures Of(View(n), past) <= Of(n.accepted, past)
      {
        assert Of(View(n), past) <= Of(View(sub), past) <= Of(sub.accepted, past);
      }
    }
  }

  /** The next session starts with nothing accepted in it. */
  lemma AdvanceHistory(sub: Sub, session: nat, bound: nat)
    requires HistoryGood(sub, session, bound)
    ensures HistoryGood(sub, session + 1, bound) && NothingYet(sub, session + 1)
  {
    OfNone(sub.accepted, session + 1);
    OfNone(View(sub), session + 1);
    hide Of, View;
  }

  lemma LaterHistory(sub: Sub, session: nat, bound: nat, higher: nat)
    requires HistoryGood(sub, session, bound) && bound <= higher
    ensures HistoryGood(sub, session, higher)
  {
    hide Of, View;
  }

  // ---------------------------------------------------------------- what happens to one subscription

  lemma OfferHistory(sub: Sub, m: Message, bound: nat)
    requires SubGood(sub) && sub.registered && HistoryGood(sub, m.session, bound) && bound <= m.serial
    ensures HistoryGood(AfterOffer(sub, m), m.session, m.serial + 1)
    ensures AfterOffer(sub, m).accepted == sub.accepted || AfterOffer(sub, m).accepted == sub.accepted + [m]
  {
    var n := AfterOffer(sub, m);
    OfferView(sub, m);
    hide HistoryGood, View, AfterOffer, SubGood;
    if n.registered {
      LongerHistory(sub, n, m, bound);
    } else {
      ShorterHistory(sub, n, m.session, bound);
      LaterHistory(n, m.session, bound, m.serial + 1);
    }
  }

  /** Taken goes to the back of both; otherwise the entry goes, and what it had parked. */
  lemma OfferView(sub: Sub, m: Message)
    requires SubGood(sub) && sub.registered
    ensures var n := AfterOffer(sub, m);
            && n.mode == sub.mode
            && (n.registered ==> View(n) == View(sub) + [m] && n.accepted == sub.accepted + [m])
            && (!n.registered ==> View(n) <= View(sub) && n.accepted == sub.accepted)
  {
    OfferRefinesFifo(sub.lane, m);
    OfferShrinks(sub.lane, m);
    var (lane, outcome) := Offered(sub.lane, m);
    hide Offered, Valid, Room;
    if outcome == Taken {
      assert sub.received + (Contents(sub.lane) + [m]) == sub.received + Contents(sub.lane) + [m];
    } else {
      assert lane.channel + [] == lane.channel;
      assert lane.channel <= Contents(sub.lane);
    }
  }

  /** Whatever the outcome, the channel holds the oldest of what there was. */
  lemma OfferShrinks(l: Lane<Message>, m: Message)
    requires Valid(l)
    ensures Offered(l, m).1 != Taken ==> Offered(l, m).0.channel <= Contents(l)
  {
    ValidSized(l);
    DrainedKeepsOrder(l);
    DrainedDead(l);
    hide Drained, Valid;
  }

  lemma DrainedDead(l: Lane<Message>)
    ensures !l.open ==> Drained(l).0.channel == l.channel
  {
  }

  lemma DrainHistory(sub: Sub, session: nat, bound: nat)
    requires SubGood(sub) && sub.registered && HistoryGood(sub, session, bound)
    ensures HistoryGood(AfterDrain(sub), session, bound) && AfterDrain(sub).accepted == sub.accepted
  {
    var n := AfterDrain(sub);
    ValidSized(sub.lane);
    DrainedKeepsOrder(sub.lane);
    DrainedDead(sub.lane);
    hide HistoryGood, Drained, SubGood;
    if n.registered {
      SameHistory(sub, n, session, bound);
    } else {
      assert n.lane.channel + [] <= Contents(sub.lane);
      ShorterHistory(sub, n, session, bound);
    }
  }

  lemma ReceiveHistory(sub: Sub, session: nat, bound: nat)
    requires sub.lane.channel != [] && HistoryGood(sub, session, bound)
    ensures HistoryGood(AfterReceive(sub), session, bound) && AfterReceive(sub).accepted == sub.accepted
  {
    var n := AfterReceive(sub);
    assert View(n) == View(sub);
    hide HistoryGood, View;
    SameHistory(sub, n, session, bound);
  }

  lemma RemoveHistory(sub: Sub, reason: End, session: nat, bound: nat)
    requires HistoryGood(sub, session, bound)
    ensures HistoryGood(RemovedFor(sub, reason), session, bound)
  {
    var n := RemovedFor(sub, reason);
    assert View(n) <= View(sub);
    hide HistoryGood, View;
    ShorterHistory(sub, n, session, bound);
  }

  // ---------------------------------------------------------------- sections

  ghost predicate Histories(r: Reg, session: nat, bound: nat) {
    forall id | id in r.subs :: HistoryGood(r.subs[id], session, bound)
  }

  ghost predicate NothingAnywhere(r: Reg, session: nat) {
    forall id | id in r.subs :: NothingYet(r.subs[id], session)
  }

  /** No subscription accepts anything. */
  ghost predicate AcceptsNothing(r: Reg, n: Reg) {
    forall id | id in n.subs :: n.subs[id].accepted == if id in r.subs then r.subs[id].accepted else []
  }

  lemma NewHistory(dest: Dest, mode: AckMode, limit: nat, capacity: nat, session: nat, bound: nat)
    ensures HistoryGood(Sub(dest, mode, NewLane(limit, capacity), true, Running, [], []), session, bound)
  {
  }

  lemma RegisterHistories(r: Reg, dest: Dest, mode: AckMode, limit: nat, capacity: nat, session: nat, bound: nat)
    requires RegGood(r) && Histories(r, session, bound)
    ensures Histories(DoRegister(r, dest, mode, limit, capacity), session, bound)
    ensures AcceptsNothing(r, DoRegister(r, dest, mode, limit, capacity))
  {
    NewHistory(dest, mode, limit, capacity, session, bound);
    assert r.nextId !in r.subs;
    hide HistoryGood, RegGood;
  }

  lemma UnregisterHistories(r: Reg, id: SubId, session: nat, bound: nat)
    requires Histories(r, session, bound)
    ensures Histories(DoUnregister(r, id), session, bound) && AcceptsNothing(r, DoUnregister(r, id))
  {
    hide HistoryGood;
    if Registered(r, id) {
      RemoveHistory(r.subs[id], Unsubscribed, session, bound);
    }
  }

  lemma CloseHistories(r: Reg, id: SubId, session: nat, bound: nat)
    requires Histories(r, session, bound)
    ensures Histories(DoClose(r, id), session, bound) && AcceptsNothing(r, DoClose(r, id))
  {
    hide HistoryGood;
    if id in r.subs {
      SameHistory(r.subs[id], AfterClose(r.subs[id]), session, bound);
    }
  }

  lemma ReceiveHistories(r: Reg, id: SubId, session: nat, bound: nat)
    requires id in r.subs && r.subs[id].lane.channel != [] && Histories(r, session, bound)
    ensures Histories(DoReceive(r, id), session, bound) && AcceptsNothing(r, DoReceive(r, id))
  {
    hide HistoryGood;
    ReceiveHistory(r.subs[id], session, bound);
  }

  lemma CleanHistories(r: Reg, session: nat, bound: nat)
    requires Histories(r, session, bound) && NothingAnywhere(r, session)
    ensures Histories(DoClean(r), session, bound) && AcceptsNothing(r, DoClean(r))
  {
    var n := DoClean(r);
    forall id | id in n.subs
      ensures HistoryGood(n.subs[id], session, bound)
    {
      CleanHistory(r.subs[id], session, bound);
    }
    hide HistoryGood;
  }

  /** Only what the pass delivers is accepted, and only by those it is routed to. */
  lemma DeliverHistories(r: Reg, m: Message, woken: seq<SubId>, bound: nat)
    requires RegGood(r) && Histories(r, m.session, bound) && bound <= m.serial
    ensures Histories(DoDeliver(r, m, woken), m.session, m.serial + 1)
    ensures forall id | id in r.subs ::
              var n := DoDeliver(r, m, woken).subs[id];
              n.accepted == r.subs[id].accepted || (Target(r, m, id) && n.accepted == r.subs[id].accepted + [m])
  {
    var n := DoDeliver(r, m, woken);
    hide HistoryGood, AfterOffer, SubGood;
    forall id | id in r.subs
      ensures HistoryGood(n.subs[id], m.session, m.serial + 1)
      ensures n.subs[id].accepted == r.subs[id].accepted
           || (Target(r, m, id) && n.subs[id].accepted == r.subs[id].accepted + [m])
    {
      if Target(r, m, id) {
        OfferHistory(r.subs[id], m, bound);
      } else {
        LaterHistory(r.subs[id], m.session, bound, m.serial + 1);
      }
    }
    hide Target;
  }

  lemma WakeHistories(r: Reg, id: SubId, session: nat, bound: nat)
    requires RegGood(r) && id in r.subs && Histories(r, session, bound)
    ensures Histories(DoWake(r, id), session, bound) && AcceptsNothing(r, DoWake(r, id))
  {
    hide HistoryGood, AfterDrain, SubGood, Pruned;
    if r.subs[id].registered {
      DrainHistory(r.subs[id], session, bound);
    }
  }

  lemma BrokerErrorHistories(r: Reg, dest: Dest, message: string, session: nat, bound: nat)
    requires Histories(r, session, bound)
    ensures Histories(DoBrokerError(r, dest, message), session, bound)
    ensures AcceptsNothing(r, DoBrokerError(r, dest, message))
  {
    hide HistoryGood;
    forall id | id in r.subs
      ensures HistoryGood(RemovedFor(r.subs[id], Abandoned(message)), session, bound)
    {
      RemoveHistory(r.subs[id], Abandoned(message), session, bound);
    }
  }

  lemma ExitHistories(r: Reg, session: nat, bound: nat)
    requires Histories(r, session, bound)
    ensures Histories(DoExit(r), session, bound) && AcceptsNothing(r, DoExit(r))
  {
    hide HistoryGood;
    forall id | id in r.subs
      ensures HistoryGood(RemovedFor(r.subs[id], ConnectionClosed), session, bound)
    {
      RemoveHistory(r.subs[id], ConnectionClosed, session, bound);
    }
  }

  lemma AdvanceHistories(r: Reg, session: nat, bound: nat)
    requires Histories(r, session, bound)
    ensures Histories(r, session + 1, bound) && NothingAnywhere(r, session + 1)
  {
    forall id | id in r.subs
      ensures HistoryGood(r.subs[id], session + 1, bound) && NothingYet(r.subs[id], session + 1)
    {
      AdvanceHistory(r.subs[id], session, bound);
    }
    hide HistoryGood, NothingYet;
  }

  lemma LaterHistories(r: Reg, session: nat, bound: nat, higher: nat)
    requires Histories(r, session, bound) && bound <= higher
    ensures Histories(r, session, higher)
  {
    forall id | id in r.subs
      ensures HistoryGood(r.subs[id], session, higher)
    {
      LaterHistory(r.subs[id], session, bound, higher);
    }
  }

  // ---------------------------------------------------------------- what is parked is current

  /** Nothing parked for a registered client-mode subscription is from an earlier session. */
  predicate ParkedCurrent(sub: Sub, session: nat) {
    sub.registered && sub.mode != Auto ==> forall i | 0 <= i < |sub.lane.queue| :: sub.lane.queue[i].session == session
  }

  ghost predicate AllCurrent(r: Reg, session: nat) {
    forall id | id in r.subs :: ParkedCurrent(r.subs[id], session)
  }

  lemma {:induction false} DrainedSuffix(l: Lane<Message>)
    ensures |Drained(l).0.queue| <= |l.queue|
    ensures Drained(l).0.queue == l.queue[|l.queue| - |Drained(l).0.queue|..]
    decreases |l.queue|
  {
    if l.queue != [] && l.open && |l.channel| < l.capacity {
      DrainedSuffix(l.(channel := l.channel + [l.queue[0]], queue := l.queue[1..]));
    }
  }

  lemma OfferCurrent(sub: Sub, m: Message)
    requires ParkedCurrent(sub, m.session)
    ensures ParkedCurrent(AfterOffer(sub, m), m.session)
  {
    DrainedSuffix(sub.lane);
    hide Drained;
  }

  lemma DrainCurrent(sub: Sub, session: nat)
    requires ParkedCurrent(sub, session)
    ensures ParkedCurrent(AfterDrain(sub), session)
  {
    DrainedSuffix(sub.lane);
    hide Drained;
  }

  /** The start of a session discards whatever client-mode subscriptions had parked. */
  lemma CleanCurrent(r: Reg, session: nat)
    ensures AllCurrent(DoClean(r), session)
  {
    hide Pruned;
  }

  lemma DeliverCurrent(r: Reg, m: Message, woken: seq<SubId>)
    requires AllCurrent(r, m.session)
    ensures AllCurrent(DoDeliver(r, m, woken), m.session)
  {
    var n := DoDeliver(r, m, woken);
    hide AfterOffer;
    forall id | id in n.subs
      ensures ParkedCurrent(n.subs[id], m.session)
    {
      OfferCurrent(r.subs[id], m);
    }
  }

  lemma WakeCurrent(r: Reg, id: SubId, session: nat)
    requires AllCurrent(r, session) && id in r.subs
    ensures AllCurrent(DoWake(r, id), session)
  {
    hide AfterDrain, Pruned;
    DrainCurrent(r.subs[id], session);
  }

  /** Sections that only remove entries, or leave their queues as they are. */
  lemma OthersCurrent(r: Reg, id: SubId, dest: Dest, mode: AckMode, limit: nat, capacity: nat, message: string,
                      session: nat)
    requires AllCurrent(r, session)
    ensures AllCurrent(DoRegister(r, dest, mode, limit, capacity), session)
    ensures AllCurrent(DoUnregister(r, id), session)
    ensures AllCurrent(DoClose(r, id), session)
    ensures AllCurrent(DoPrune(r), session) && AllCurrent(DoFail(r, id), session)
    ensures AllCurrent(DoBrokerError(r, dest, message), session)
  {
    hide Pruned, Without;
  }

  lemma ReceiveCurrent(r: Reg, id: SubId, session: nat)
    requires AllCurrent(r, session) && id in r.subs && r.subs[id].lane.channel != []
    ensures AllCurrent(DoReceive(r, id), session)
  {
  }
}
