/** The outbound queue and the receipt table. */
module Wire {
  import opened Options
  import opened Types

  /**
   * What is queued for the broker: `Plain` asks for a receipt under an id the
   * library made, `Own` under one the caller put in the frame, which may be any.
   * `serial` is history.
   */
  datatype Out =
    | Subscribe(id: SubId)
    | Unsubscribe(id: SubId)
    | AsGiven(sub: SubId, given: Token)
    | Plain(receipt: Option<ReceiptId>)
    | Own(asked: ReceiptId)
    | Ack(sub: SubId, ackId: Token, session: nat, serial: nat)

  /** What became of a queued item once the I/O task took it. */
  datatype Disposal = Handed(session: nat) | WriteFailed(session: nat) | Stale

  /**
   * Everything ever queued, and for a prefix of it what became of each item:
   * the items past that prefix are the queue. `seen` holds the ids the broker
   * was handed a SUBSCRIBE for, `reached` the places in the log of what it has
   * processed.
   */
  datatype Wire = Wire(queued: seq<Out>, disposed: seq<Disposal>, seen: set<SubId>, reached: set<nat>)

  predicate Waits(w: Wire) {
    |w.disposed| < |w.queued|
  }

  function Front(w: Wire): Out
    requires Waits(w)
  {
    w.queued[|w.disposed|]
  }

  function Enqueued(w: Wire, out: Out): Wire {
    w.(queued := w.queued + [out])
  }

  function Disposed(w: Wire, d: Disposal): Wire
    requires Waits(w)
  {
    w.(disposed := w.disposed + [d],
       seen := if d.Handed? && Front(w).Subscribe? then w.seen + {Front(w).id} else w.seen)
  }

  /** `Outbound::writable_in`: an acknowledgement only in the session it was issued for. */
  predicate Writable(out: Out, session: nat) {
    out.Ack? ==> out.session == session
  }

  /** Both went out on the same connection. */
  predicate SameSession(d: Disposal, e: Disposal) {
    !d.Stale? && !e.Stale? && d.session == e.session
  }

  /** The broker reads each connection in order; of what it was handed, and of a write that failed, it may get less. */
  predicate CanReach(w: Wire, n: nat) {
    && n < |w.disposed| && !w.disposed[n].Stale?
    && forall i | 0 <= i < n && SameSession(w.disposed[i], w.disposed[n]) :: i in w.reached
  }

  function Processed(w: Wire, n: nat): Wire {
    w.(reached := w.reached + {n})
  }

  /** One disposal, seen from session `now`. */
  predicate DisposalGood(out: Out, d: Disposal, now: nat) {
    match d
    case Handed(s) => s <= now && Writable(out, s)
    case WriteFailed(s) => s <= now && Writable(out, s)
    case Stale => out.Ack? && out.session < now
  }

  /** `d` came before `e`: sessions only advance, and a failed write was the last of its session. */
  predicate InTurn(d: Disposal, e: Disposal) {
    !d.Stale? && !e.Stale? ==> if d.Handed? then d.session <= e.session else d.session < e.session
  }

  /** `up` while the connection of `session` may still be written to. */
  ghost predicate WireGood(w: Wire, session: nat, up: bool) {
    && |w.disposed| <= |w.queued|
    && (forall i | 0 <= i < |w.disposed| :: DisposalGood(w.queued[i], w.disposed[i], session))
    && (forall i | 0 <= i < |w.disposed| ::
          up && w.disposed[i].WriteFailed? ==> w.disposed[i].session < session)
    && (forall i, j | 0 <= i < j < |w.disposed| :: InTurn(w.disposed[i], w.disposed[j]))
    && (forall n | n in w.reached :: CanReach(w, n))
  }

  /** The log only grows, and what is disposed of from now on is disposed of in `session`. */
  ghost predicate WireEvolves(w: Wire, n: Wire, session: nat) {
    && w.queued <= n.queued && w.disposed <= n.disposed && w.seen <= n.seen && w.reached <= n.reached
    && (forall i | |w.disposed| <= i < |n.disposed| :: n.disposed[i].Stale? || n.disposed[i].session == session)
  }

  lemma EnqueueKeeps(w: Wire, out: Out, session: nat, up: bool)
    requires WireGood(w, session, up)
    ensures WireGood(Enqueued(w, out), session, up) && WireEvolves(w, Enqueued(w, out), session)
  {
    hide DisposalGood, InTurn;
  }

  lemma DisposeKeeps(w: Wire, d: Disposal, session: nat, up: bool)
    requires WireGood(w, session, true) && Waits(w)
    requires DisposalGood(Front(w), d, session)
    requires d.Stale? || d.session == session
    requires d.WriteFailed? ==> !up
    ensures WireGood(Disposed(w, d), session, up) && WireEvolves(w, Disposed(w, d), session)
  {
    var n := Disposed(w, d);
    var k := |w.disposed|;
    forall i, j | 0 <= i < j < |n.disposed|
      ensures InTurn(n.disposed[i], n.disposed[j])
    {
      if j == k {
        assert DisposalGood(w.queued[i], w.disposed[i], session);
      } else {
        assert InTurn(w.disposed[i], w.disposed[j]);
      }
    }
    hide InTurn, DisposalGood;
  }

  lemma AdvanceKeeps(w: Wire, session: nat, up: bool)
    requires WireGood(w, session, up)
    ensures WireGood(w, session + 1, true)
  {
    hide InTurn;
    forall i | 0 <= i < |w.disposed|
      ensures DisposalGood(w.queued[i], w.disposed[i], session + 1)
    {
      assert DisposalGood(w.queued[i], w.disposed[i], session);
    }
  }

  // ---------------------------------------------------------------- receipts

  /**
   * `awaiting` is the receipt table; `answers` what handles were told; `closed`
   * the handles given up by their owners.
   */
  datatype Receipts = Receipts(
    next: ReceiptId, awaiting: set<ReceiptId>, answers: map<ReceiptId, bool>, closed: set<ReceiptId>)

  const NO_RECEIPTS: Receipts := Receipts(1, {}, map[], {})

  /** The id is in the table before the frame is on its way. */
  function Registering(r: Receipts): Receipts {
    r.(next := r.next + 1, awaiting := r.awaiting + {r.next})
  }

  /** `settle_receipt`: the first answer takes the id out of the table, to its handle if there still is one. */
  function Answered(r: Receipts, id: ReceiptId, ok: bool): Receipts {
    if id !in r.awaiting then r
    else r.(awaiting := r.awaiting - {id},
            answers := if id in r.closed then r.answers else r.answers[id := ok])
  }

  function HandleClosed(r: Receipts, id: ReceiptId): Receipts {
    r.(closed := r.closed + {id})
  }

  function Deregistered(r: Receipts, id: ReceiptId): Receipts {
    r.(awaiting := r.awaiting - {id})
  }

  /** Given out, and awaiting, answered or given up. */
  predicate Known(r: Receipts, id: ReceiptId) {
    id < r.next && (id in r.awaiting || id in r.answers || id in r.closed)
  }

  ghost predicate ReceiptsGood(r: Receipts) {
    && (forall id | id in r.awaiting :: id < r.next && id !in r.answers)
    && (forall id | id in r.answers :: id < r.next)
  }

  /** An answer is never revised, and no receipt slips out unanswered and unclosed. */
  ghost predicate ReceiptsEvolve(r: Receipts, n: Receipts) {
    && r.next <= n.next && r.closed <= n.closed
    && (forall id | id in r.answers :: id in n.answers && n.answers[id] == r.answers[id])
    && (forall id | Known(r, id) :: Known(n, id))
    && (forall id | id in n.answers && id !in r.answers :: id in r.awaiting && id !in n.awaiting)
  }

  lemma ReceiptSectionsKeep(r: Receipts, id: ReceiptId, ok: bool)
    requires ReceiptsGood(r)
    ensures ReceiptsGood(Registering(r)) && ReceiptsEvolve(r, Registering(r)) && Known(Registering(r), r.next)
    ensures ReceiptsGood(Answered(r, id, ok)) && ReceiptsEvolve(r, Answered(r, id, ok))
    ensures ReceiptsGood(HandleClosed(r, id)) && ReceiptsEvolve(r, HandleClosed(r, id))
    ensures id in r.closed ==> ReceiptsGood(Deregistered(r, id)) && ReceiptsEvolve(r, Deregistered(r, id))
  {
  }
}
