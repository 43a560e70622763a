/** The subscription registry and the wake list: every locked section that changes them. */
module Registry {
  import opened Lane
  import opened Entry
  import opened Types

  /**
   * A subscription, while registered and after. `received` and `accepted` are
   * history: what its consumer took, and what its entry accepted.
   */
  datatype Sub = Sub(
    dest: Dest, mode: AckMode, lane: Lane<Message>,
    registered: bool, ended: MaybeEnd,
    received: seq<Message>, accepted: seq<Message>)

  /**
   * The registry holds the entries with `registered` set. `parked` is the I/O
   * task's wake list, `failedIds` the ids it failed at their overflow limit,
   * `errors` its count of broker errors by destination.
   */
  datatype Reg = Reg(
    nextId: SubId, subs: map<SubId, Sub>,
    parked: seq<SubId>, failedIds: set<SubId>, errors: map<Dest, nat>)

  const EMPTY: Reg := Reg(1, map[], [], {}, map[])

  const SUBSCRIPTION_ERROR_THRESHOLD: nat := 3

  predicate Registered(r: Reg, id: SubId) {
    id in r.subs && r.subs[id].registered
  }

  /** Registered in an ack mode that acknowledges. */
  predicate Acking(r: Reg, id: SubId) {
    Registered(r, id) && r.subs[id].mode != Auto
  }

  function RegisteredIds(r: Reg): set<SubId> {
    set id | id in r.subs && r.subs[id].registered
  }

  // ---------------------------------------------------------------- one entry

  /** `end_subscription`: a second reason is ignored. */
  function EndedBy(before: MaybeEnd, reason: End): MaybeEnd {
    if before.Running? then Ended(reason) else before
  }

  /** The entry leaves the registry, its overflow queue with it. */
  function Removed(sub: Sub): Sub {
    sub.(registered := false, lane := sub.lane.(queue := []))
  }

  function RemovedFor(sub: Sub, reason: End): Sub {
    Removed(sub).(ended := EndedBy(sub.ended, reason))
  }

  /** One registry entry after the delivery closure ran on it. */
  function AfterOffer(sub: Sub, m: Message): Sub {
    var (lane, outcome) := Offered(sub.lane, m);
    match outcome
    case Taken => sub.(lane := lane, accepted := sub.accepted + [m])
    case Closed => Removed(sub.(lane := lane))
    case Overflowed => RemovedFor(sub.(lane := lane), OverLimit(sub.lane.limit))
  }

  function AfterReceive(sub: Sub): Sub
    requires sub.lane.channel != []
  {
    sub.(lane := Received(sub.lane), received := sub.received + [sub.lane.channel[0]])
  }

  function AfterDrain(sub: Sub): Sub {
    var (lane, alive) := Drained(sub.lane);
    if alive then sub.(lane := lane) else Removed(sub.(lane := lane))
  }

  function AfterClean(sub: Sub): Sub {
    if sub.registered && sub.mode != Auto then sub.(lane := Discarded(sub.lane)) else sub
  }

  function AfterClose(sub: Sub): Sub {
    sub.(lane := sub.lane.(open := false))
  }

  // ---------------------------------------------------------------- the wake list

  /** Something is parked for a registered subscription. */
  predicate Waiting(subs: map<SubId, Sub>, id: SubId) {
    id in subs && subs[id].registered && subs[id].lane.queue != []
  }

  /** `prune_parked` */
  function Pruned(parked: seq<SubId>, subs: map<SubId, Sub>): seq<SubId> {
    if parked == [] then []
    else (if Waiting(subs, parked[0]) then [parked[0]] else []) + Pruned(parked[1..], subs)
  }

  function Without(parked: seq<SubId>, id: SubId): seq<SubId> {
    if parked == [] then []
    else (if parked[0] == id then [] else [parked[0]]) + Without(parked[1..], id)
  }

  // ---------------------------------------------------------------- sections

  /** The registry section of `subscribe_with_capacity`. */
  function DoRegister(r: Reg, dest: Dest, mode: AckMode, limit: nat, capacity: nat): Reg {
    r.(nextId := r.nextId + 1,
       subs := r.subs[r.nextId := Sub(dest, mode, NewLane(limit, capacity), true, Running, [], [])])
  }

  /** The registry section of `unsubscribe`, and of a dropped handle that got the lock. */
  function DoUnregister(r: Reg, id: SubId): Reg {
    if Registered(r, id) then r.(subs := r.subs[id := RemovedFor(r.subs[id], Unsubscribed)]) else r
  }

  /** The receiving half is dropped. */
  function DoClose(r: Reg, id: SubId): Reg {
    if id in r.subs then r.(subs := r.subs[id := AfterClose(r.subs[id])]) else r
  }

  function DoReceive(r: Reg, id: SubId): Reg
    requires id in r.subs && r.subs[id].lane.channel != []
  {
    r.(subs := r.subs[id := AfterReceive(r.subs[id])])
  }

  /** A new connection: forget what client-mode subscriptions had parked. */
  function DoClean(r: Reg): Reg {
    var subs := map id | id in r.subs :: AfterClean(r.subs[id]);
    r.(subs := subs, parked := Pruned(r.parked, subs))
  }

  /** The registered entries a MESSAGE is routed to. */
  predicate Target(r: Reg, m: Message, id: SubId) {
    Registered(r, id) &&
    (if m.sub.Some? then id == m.sub.value else m.dest.Some? && r.subs[id].dest == m.dest.value)
  }

  function AckTargets(r: Reg, m: Message): set<SubId> {
    set id | id in r.subs && Target(r, m, id) && r.subs[id].mode != Auto
  }

  /** The delivery pass; `woken` joins the wake list. */
  function DoDeliver(r: Reg, m: Message, woken: seq<SubId>): Reg {
    r.(subs := map id | id in r.subs :: if Target(r, m, id) then AfterOffer(r.subs[id], m) else r.subs[id],
       parked := r.parked + woken)
  }

  /** Ids the delivery pass adds to the wake list, and ids it fails. */
  function Woken(r: Reg, m: Message): set<SubId> {
    set id | id in r.subs && Target(r, m, id) && id !in r.parked &&
             AfterOffer(r.subs[id], m).registered && AfterOffer(r.subs[id], m).lane.queue != []
  }

  function Overrun(r: Reg, m: Message): set<SubId> {
    set id | id in r.subs && Target(r, m, id) && Offered(r.subs[id].lane, m).1 == Overflowed
  }

  /** A parked subscription has room, or its receiver is gone. */
  function DoWake(r: Reg, id: SubId): Reg
    requires id in r.subs
  {
    var subs := if r.subs[id].registered then r.subs[id := AfterDrain(r.subs[id])] else r.subs;
    r.(subs := subs, parked := Pruned(r.parked, subs))
  }

  function DoPrune(r: Reg): Reg {
    r.(parked := Pruned(r.parked, r.subs))
  }

  /** One subscription failed at its limit is struck off the wake list for good. */
  function DoFail(r: Reg, id: SubId): Reg {
    r.(parked := Without(r.parked, id), failedIds := r.failedIds + {id})
  }

  function ErrorCount(r: Reg, dest: Dest): nat {
    (if dest in r.errors then r.errors[dest] else 0) + 1
  }

  /** An ERROR for `dest`: the third one abandons every subscription to it. */
  function DoBrokerError(r: Reg, dest: Dest, message: string): Reg {
    var n := r.(errors := r.errors[dest := ErrorCount(r, dest)]);
    if ErrorCount(r, dest) < SUBSCRIPTION_ERROR_THRESHOLD then n
    else n.(subs := map id | id in r.subs ::
                      if r.subs[id].registered && r.subs[id].dest == dest
                      then RemovedFor(r.subs[id], Abandoned(message)) else r.subs[id])
  }

  /** The task's only exit: tell every handle, then clear. The wake list dies with the task. */
  function DoExit(r: Reg): Reg {
    r.(subs := map id | id in r.subs ::
                 if r.subs[id].registered then RemovedFor(r.subs[id], ConnectionClosed) else r.subs[id],
       parked := [])
  }

  // ---------------------------------------------------------------- how subscriptions change

  /** A subscription only moves from registered to gone, from live to closed, from running to ended. */
  predicate SubEvolves(a: Sub, b: Sub) {
    && a.dest == b.dest && a.mode == b.mode
    && (b.registered ==> a.registered)
    && (b.lane.open ==> a.lane.open)
    && (a.ended.Ended? ==> b.ended == a.ended)
  }

  /** New subscriptions get new ids; old ones stay on the books. */
  ghost predicate RegEvolves(r: Reg, n: Reg) {
    && r.nextId <= n.nextId
    && (forall id | id in r.subs :: id in n.subs && SubEvolves(r.subs[id], n.subs[id]))
    && (forall id | id in n.subs && id !in r.subs :: r.nextId <= id < n.nextId)
  }

  /**
   * An entry out of the registry has nothing parked, and unless its receiver
   * is gone its handle already knows why it ended.
   */
  predicate SubGood(sub: Sub) {
    && Valid(sub.lane)
    && (sub.registered ==> sub.ended.Running?)
    && (!sub.registered ==> sub.lane.queue == [])
    && (!sub.registered && sub.lane.open ==> sub.ended.Ended?)
  }

  /** The wake list names every waiting subscription, and none twice. */
  ghost predicate WakeGood(r: Reg) {
    && (forall id | Waiting(r.subs, id) :: id in r.parked)
    && Distinct(r.parked)
    && (forall i | 0 <= i < |r.parked| :: r.parked[i] in r.subs)
  }

  ghost predicate RegGood(r: Reg) {
    && (forall id | id in r.subs :: id < r.nextId && SubGood(r.subs[id]))
    && (forall id | id in r.failedIds :: id in r.subs && !r.subs[id].registered)
    && WakeGood(r)
  }

  // ---------------------------------------------------------------- entries stay good

  lemma RemovedGood(sub: Sub)
    requires SubGood(sub) && !sub.lane.open
    ensures SubGood(Removed(sub)) && SubEvolves(sub, Removed(sub))
  {
    hide Pow2;
  }

  lemma RemovedForGood(sub: Sub, reason: End)
    requires SubGood(sub)
    ensures SubGood(RemovedFor(sub, reason)) && SubEvolves(sub, RemovedFor(sub, reason))
  {
    hide Pow2;
  }

  lemma AfterOfferGood(sub: Sub, m: Message)
    requires SubGood(sub) && sub.registered
    ensures SubGood(AfterOffer(sub, m)) && SubEvolves(sub, AfterOffer(sub, m))
  {
    OfferRefinesFifo(sub.lane, m);
    var lane := Offered(sub.lane, m).0;
    hide Offered, Valid;
    assert SubGood(sub.(lane := lane));
    if !sub.lane.open {
      RemovedGood(sub.(lane := lane));
    } else {
      RemovedForGood(sub.(lane := lane), OverLimit(sub.lane.limit));
    }
  }

  lemma AfterReceiveGood(sub: Sub)
    requires SubGood(sub) && sub.lane.channel != []
    ensures SubGood(AfterReceive(sub)) && SubEvolves(sub, AfterReceive(sub))
  {
    ReceiveRefinesFifo(sub.lane);
    hide Valid;
  }

  lemma AfterDrainGood(sub: Sub)
    requires SubGood(sub) && sub.registered
    ensures SubGood(AfterDrain(sub)) && SubEvolves(sub, AfterDrain(sub))
  {
    DrainedValid(sub.lane);
    ValidSized(sub.lane);
    DrainedKeepsOrder(sub.lane);
    var (lane, alive) := Drained(sub.lane);
    hide Drained, Valid, Sized;
    assert SubGood(sub.(lane := lane));
    if !alive {
      RemovedGood(sub.(lane := lane));
    }
  }

  lemma AfterCleanGood(sub: Sub)
    requires SubGood(sub)
    ensures SubGood(AfterClean(sub)) && SubEvolves(sub, AfterClean(sub))
    ensures AfterClean(sub).registered == sub.registered
    ensures AfterClean(sub).lane.queue != [] ==> sub.lane.queue != []
  {
    hide Pow2;
  }

  lemma AfterCloseGood(sub: Sub)
    requires SubGood(sub)
    ensures SubGood(AfterClose(sub)) && SubEvolves(sub, AfterClose(sub))
  {
    hide Pow2;
  }

  // ---------------------------------------------------------------- the wake list stays good

  lemma {:induction false} PrunedMembers(parked: seq<SubId>, subs: map<SubId, Sub>)
    ensures forall id :: id in Pruned(parked, subs) <==> id in parked && Waiting(subs, id)
    ensures Distinct(parked) ==> Distinct(Pruned(parked, subs))
  {
    if parked != [] {
      PrunedMembers(parked[1..], subs);
      hide Waiting;
      var rest := Pruned(parked[1..], subs);
      if Distinct(parked) {
        assert parked[0] !in parked[1..];
        assert parked[0] !in rest;
      }
    }
  }

  lemma {:induction false} WithoutMembers(parked: seq<SubId>, id: SubId)
    ensures forall k :: k in Without(parked, id) <==> k in parked && k != id
    ensures Distinct(parked) ==> Distinct(Without(parked, id))
  {
    if parked != [] {
      WithoutMembers(parked[1..], id);
      var rest := Without(parked[1..], id);
      if Distinct(parked) {
        assert parked[0] !in parked[1..];
        assert parked[0] !in rest;
      }
    }
  }

  /** Pruning after a change keeps the wake list good, whatever lost its parked frames. */
  lemma PruneGood(r: Reg, subs: map<SubId, Sub>)
    requires WakeGood(r) && subs.Keys == r.subs.Keys
    requires forall id | Waiting(subs, id) :: Waiting(r.subs, id)
    ensures WakeGood(r.(subs := subs, parked := Pruned(r.parked, subs)))
    ensures forall id :: id in Pruned(r.parked, subs) <==> Waiting(subs, id)
  {
    PrunedMembers(r.parked, subs);
    hide Pruned, Distinct;
    var left := Pruned(r.parked, subs);
    assert forall i | 0 <= i < |left| :: left[i] in left;
  }

  // ---------------------------------------------------------------- sections keep the registry good

  lemma RegisterKeeps(r: Reg, dest: Dest, mode: AckMode, limit: nat, capacity: nat)
    requires RegGood(r)
    ensures RegGood(DoRegister(r, dest, mode, limit, capacity))
    ensures RegEvolves(r, DoRegister(r, dest, mode, limit, capacity))
  {
    var n := DoRegister(r, dest, mode, limit, capacity);
    var sub := Sub(dest, mode, NewLane(limit, capacity), true, Running, [], []);
    assert sub.lane.queue == [];
    assert SubGood(sub);
    hide SubGood, Valid, Distinct, NewLane;
    assert r.nextId !in r.subs;
    forall id | Waiting(n.subs, id)
      ensures id in n.parked
    {
      assert id != r.nextId;
      assert Waiting(r.subs, id);
    }
  }

  /** One entry changed, losing parked frames at most. */
  lemma OneChangedKeeps(r: Reg, id: SubId, sub: Sub)
    requires RegGood(r) && id in r.subs
    requires SubGood(sub) && SubEvolves(r.subs[id], sub)
    requires sub.registered && sub.lane.queue != [] ==> r.subs[id].lane.queue != []
    ensures RegGood(r.(subs := r.subs[id := sub])) && RegEvolves(r, r.(subs := r.subs[id := sub]))
  {
    hide SubGood, Distinct;
    var n := r.(subs := r.subs[id := sub]);
    forall k | Waiting(n.subs, k)
      ensures Waiting(r.subs, k)
    {
    }
  }

  lemma UnregisterKeeps(r: Reg, id: SubId)
    requires RegGood(r)
    ensures RegGood(DoUnregister(r, id)) && RegEvolves(r, DoUnregister(r, id))
    ensures !Registered(DoUnregister(r, id), id)
    ensures Registered(r, id) ==> DoUnregister(r, id).subs[id].ended == Ended(Unsubscribed)
  {
    if Registered(r, id) {
      RemovedForGood(r.subs[id], Unsubscribed);
      OneChangedKeeps(r, id, RemovedFor(r.subs[id], Unsubscribed));
    }
  }

  lemma CloseKeeps(r: Reg, id: SubId)
    requires RegGood(r)
    ensures RegGood(DoClose(r, id)) && RegEvolves(r, DoClose(r, id))
  {
    if id in r.subs {
      AfterCloseGood(r.subs[id]);
      OneChangedKeeps(r, id, AfterClose(r.subs[id]));
    }
  }

  lemma ReceiveKeeps(r: Reg, id: SubId)
    requires RegGood(r) && id in r.subs && r.subs[id].lane.channel != []
    ensures RegGood(DoReceive(r, id)) && RegEvolves(r, DoReceive(r, id))
  {
    AfterReceiveGood(r.subs[id]);
    OneChangedKeeps(r, id, AfterReceive(r.subs[id]));
  }

  lemma CleanKeeps(r: Reg)
    requires RegGood(r)
    ensures RegGood(DoClean(r)) && RegEvolves(r, DoClean(r))
  {
    hide SubGood, SubEvolves, AfterClean, Pruned, WakeGood;
    var n := DoClean(r);
    forall id | id in r.subs
      ensures SubGood(n.subs[id]) && SubEvolves(r.subs[id], n.subs[id])
      ensures n.subs[id].registered == r.subs[id].registered
      ensures Waiting(n.subs, id) ==> Waiting(r.subs, id)
    {
      AfterCleanGood(r.subs[id]);
    }
    PruneGood(r, n.subs);
  }

  lemma DeliverKeeps(r: Reg, m: Message, woken: seq<SubId>)
    requires RegGood(r) && Lists(woken, Woken(r, m))
    ensures RegGood(DoDeliver(r, m, woken)) && RegEvolves(r, DoDeliver(r, m, woken))
  {
    var n := DoDeliver(r, m, woken);
    forall id | id in r.subs
      ensures SubGood(n.subs[id]) && SubEvolves(r.subs[id], n.subs[id])
      ensures Waiting(n.subs, id) ==> id in r.parked || id in woken
    {
      if Target(r, m, id) {
        AfterOfferGood(r.subs[id], m);
        hide AfterOffer, SubGood, Distinct;
        assert id in Woken(r, m) ==> id in woken;
      }
    }
    DeliverDistinct(r, m, woken);
    hide SubGood, SubEvolves, AfterOffer, Target, Distinct, Lists, Waiting;
    WakeMore(r, n, woken);
    hide WakeGood;
  }

  lemma WakeMore(r: Reg, n: Reg, woken: seq<SubId>)
    requires WakeGood(r) && n.parked == r.parked + woken && n.subs.Keys == r.subs.Keys
    requires forall id | Waiting(n.subs, id) :: id in r.parked || id in woken
    requires Distinct(n.parked) && forall i | 0 <= i < |n.parked| :: n.parked[i] in r.subs
    ensures WakeGood(n)
  {
    hide Waiting, Distinct;
  }

  lemma DeliverDistinct(r: Reg, m: Message, woken: seq<SubId>)
    requires WakeGood(r) && Lists(woken, Woken(r, m))
    ensures Distinct(r.parked + woken)
    ensures forall i | 0 <= i < |r.parked + woken| :: (r.parked + woken)[i] in r.subs
  {
    hide AfterOffer, Target;
    var all := r.parked + woken;
    forall i, j | 0 <= i < j < |all|
      ensures all[i] != all[j]
    {
      if i < |r.parked| <= j {
        assert woken[j - |r.parked|] in Woken(r, m);
      }
    }
  }

  lemma WakeKeeps(r: Reg, id: SubId)
    requires RegGood(r) && id in r.subs
    ensures RegGood(DoWake(r, id)) && RegEvolves(r, DoWake(r, id))
    ensures forall k :: k in DoWake(r, id).parked <==> Waiting(DoWake(r, id).subs, k)
  {
    var n := DoWake(r, id);
    if r.subs[id].registered {
      AfterDrainGood(r.subs[id]);
      DrainEmptiesOrFills(r.subs[id].lane);
      hide SubGood, Distinct, Drained, Pruned;
      assert AfterDrain(r.subs[id]).registered && AfterDrain(r.subs[id]).lane.queue != []
             ==> r.subs[id].lane.queue != [];
      OneChangedKeeps(r, id, AfterDrain(r.subs[id]));
      var mid := r.(subs := n.subs);
      assert RegGood(mid);
      PruneKeeps(mid);
    } else {
      PruneKeeps(r);
    }
  }

  lemma DrainEmptiesOrFills(l: Lane<Message>)
    ensures l.queue == [] ==> Drained(l).0.queue == []
  {
  }

  lemma PruneKeeps(r: Reg)
    requires RegGood(r)
    ensures RegGood(DoPrune(r)) && RegEvolves(r, DoPrune(r))
    ensures forall id :: id in DoPrune(r).parked <==> Waiting(r.subs, id)
  {
    hide SubGood, Pruned, Waiting;
    PruneGood(r, r.subs);
  }

  lemma FailKeeps(r: Reg, id: SubId)
    requires RegGood(r) && id in r.subs && !r.subs[id].registered
    ensures RegGood(DoFail(r, id)) && RegEvolves(r, DoFail(r, id))
    ensures id in DoFail(r, id).failedIds && forall k :: k in DoFail(r, id).parked <==> k in r.parked && k != id
  {
    WithoutMembers(r.parked, id);
    hide SubGood, Without, Distinct;
    assert forall i | 0 <= i < |Without(r.parked, id)| :: Without(r.parked, id)[i] in Without(r.parked, id);
  }

  lemma BrokerErrorKeeps(r: Reg, dest: Dest, message: string)
    requires RegGood(r)
    ensures RegGood(DoBrokerError(r, dest, message)) && RegEvolves(r, DoBrokerError(r, dest, message))
  {
    var n := DoBrokerError(r, dest, message);
    forall id | id in r.subs
      ensures SubGood(n.subs[id]) && SubEvolves(r.subs[id], n.subs[id])
      ensures Waiting(n.subs, id) ==> Waiting(r.subs, id)
    {
      RemovedForGood(r.subs[id], Abandoned(message));
    }
    hide SubGood, SubEvolves, RemovedFor, Distinct;
  }

  lemma ExitKeeps(r: Reg)
    requires RegGood(r)
    ensures RegGood(DoExit(r)) && RegEvolves(r, DoExit(r))
    ensures RegisteredIds(DoExit(r)) == {}
  {
    var n := DoExit(r);
    forall id | id in r.subs
      ensures SubGood(n.subs[id]) && SubEvolves(r.subs[id], n.subs[id])
      ensures !n.subs[id].registered
    {
      RemovedForGood(r.subs[id], ConnectionClosed);
    }
    hide SubGood, SubEvolves, RemovedFor;
  }

  // ---------------------------------------------------------------- what the sections do, exactly

  /**
   * The delivery pass offers the message to exactly the entries it is routed
   * to. One takes it, at the back, if its receiver is there and its two stages
   * have room; one whose stages are full is failed with its limit; one whose
   * receiver is gone is dropped. Nothing else changes.
   */
  lemma DeliveryReaches(r: Reg, m: Message, woken: seq<SubId>, id: SubId)
    requires RegGood(r) && id in r.subs
    ensures var sub := r.subs[id];
            var n := DoDeliver(r, m, woken).subs[id];
            if !Target(r, m, id) then n == sub
            else if !sub.lane.open then !n.registered && n.accepted == sub.accepted && n.ended == sub.ended
            else if |Contents(sub.lane)| < Room(sub.lane)
            then n.registered && n.accepted == sub.accepted + [m] && Contents(n.lane) == Contents(sub.lane) + [m]
            else !n.registered && n.accepted == sub.accepted && n.ended == Ended(OverLimit(sub.lane.limit))
  {
    assert SubGood(r.subs[id]);
    OfferRefinesFifo(r.subs[id].lane, m);
    hide Offered, Valid, WakeGood, Contents, Room;
  }

  /** The third ERROR for a destination ends every subscription to it with the broker's message; none before does. */
  lemma ThirdErrorAbandons(r: Reg, dest: Dest, message: string, id: SubId)
    requires RegGood(r) && id in r.subs
    ensures var sub := r.subs[id];
            var n := DoBrokerError(r, dest, message).subs[id];
            if sub.registered && sub.dest == dest && ErrorCount(r, dest) >= SUBSCRIPTION_ERROR_THRESHOLD
            then !n.registered && n.ended == Ended(Abandoned(message))
            else n == sub
    ensures ErrorCount(DoBrokerError(r, dest, message), dest) == ErrorCount(r, dest) + 1
    ensures forall other | other != dest :: ErrorCount(DoBrokerError(r, dest, message), other) == ErrorCount(r, other)
  {
    assert SubGood(r.subs[id]);
    hide Valid, WakeGood;
  }

  /** The exit ends exactly the subscriptions still registered, and tells each handle the connection closed. */
  lemma ExitTellsAll(r: Reg, id: SubId)
    requires RegGood(r) && id in r.subs
    ensures var sub := r.subs[id];
            var n := DoExit(r).subs[id];
            if sub.registered then !n.registered && n.ended == Ended(ConnectionClosed) else n == sub
  {
    assert SubGood(r.subs[id]);
    hide Valid, WakeGood;
  }
}
