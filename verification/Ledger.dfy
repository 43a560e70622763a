/**
 * Deliveries awaiting acknowledgement: the pending map, and as history the
 * book of everything ever recorded in it and what became of it.
 */
module Ledger {
  import opened Types

  datatype Reason = SessionOver | Unsubscribing | HandleDropped | UnsubscribeSent | ReceiverGone | Swept

  datatype Fate =
    | Outstanding
    | Named
    | Covered
    | Forgotten(why: Reason)

  /** A recorded delivery and what became of it. */
  datatype Line = Line(pend: Pend, fate: Fate)

  datatype Key = Key(sub: SubId, serial: nat)

  /** `pending` is the client's; `log` (what this session recorded) and `book` are history. */
  datatype Ledger = Ledger(
    pending: map<SubId, seq<Pend>>, log: map<SubId, seq<Pend>>, book: map<Key, Line>)

  const BLANK: Ledger := Ledger(map[], map[], map[])

  function QueueOf(queues: map<SubId, seq<Pend>>, id: SubId): seq<Pend> {
    if id in queues then queues[id] else []
  }

  // ---------------------------------------------------------------- finding a message

  /** Where the first entry with this `ack` value stands, `|q|` when there is none. */
  function ByAckId(q: seq<Pend>, id: Token): (i: nat)
    ensures i <= |q|
    ensures i < |q| ==> q[i].ackId == id
    ensures forall j | 0 <= j < i :: q[j].ackId != id
  {
    if q == [] || q[0].ackId == id then 0 else 1 + ByAckId(q[1..], id)
  }

  function ByMsgId(q: seq<Pend>, id: Token): (i: nat)
    ensures i <= |q|
    ensures i < |q| ==> q[i].msgId == id
    ensures forall j | 0 <= j < i :: q[j].msgId != id
  {
    if q == [] || q[0].msgId == id then 0 else 1 + ByMsgId(q[1..], id)
  }

  /** By `ack` value first, then by `message-id`. */
  function Find(q: seq<Pend>, id: Token): (i: nat)
    ensures i <= |q|
    ensures i == |q| <==> forall j | 0 <= j < |q| :: q[j].ackId != id && q[j].msgId != id
  {
    if ByAckId(q, id) < |q| then ByAckId(q, id) else ByMsgId(q, id)
  }

  // ---------------------------------------------------------------- sections

  /** The queue left when entry `pos` is settled. */
  function LeftOver(q: seq<Pend>, pos: nat, cumulative: bool): seq<Pend>
    requires pos < |q|
  {
    if cumulative then q[pos + 1..] else q[..pos] + q[pos + 1..]
  }

  function Stored(queues: map<SubId, seq<Pend>>, id: SubId, q: seq<Pend>): map<SubId, seq<Pend>> {
    if q == [] then queues - {id} else queues[id := q]
  }

  /** Entry `pos` is named by an ACK or NACK, and for a cumulative one those before it are covered. */
  function Settled(l: Ledger, sub: SubId, pos: nat, cumulative: bool): Ledger
    requires pos < |QueueOf(l.pending, sub)|
  {
    var q := QueueOf(l.pending, sub);
    l.(pending := Stored(l.pending, sub, LeftOver(q, pos, cumulative)),
       book := map k | k in l.book ::
                 if k.sub == sub && k.serial == q[pos].serial then l.book[k].(fate := Named)
                 else if cumulative && k.sub == sub && l.book[k].fate == Outstanding && k.serial < q[pos].serial
                 then l.book[k].(fate := Covered)
                 else l.book[k])
  }

  /** Whatever is outstanding under `ids` is forgotten. */
  function Forgot(l: Ledger, ids: set<SubId>, why: Reason): Ledger {
    l.(pending := l.pending - ids,
       book := map k | k in l.book ::
                 if k.sub in ids && l.book[k].fate == Outstanding then l.book[k].(fate := Forgotten(why))
                 else l.book[k])
  }

  function Grown(queues: map<SubId, seq<Pend>>, ids: set<SubId>, p: Pend): map<SubId, seq<Pend>> {
    map id | id in queues.Keys + ids :: QueueOf(queues, id) + if id in ids then [p] else []
  }

  /** One delivery is recorded under each of `ids`. */
  function Recorded(l: Ledger, ids: set<SubId>, p: Pend): Ledger {
    l.(pending := Grown(l.pending, ids, p),
       log := Grown(l.log, ids, p),
       book := map k | k in l.book.Keys + (set id | id in ids :: Key(id, p.serial)) ::
                 if k.serial == p.serial && k.sub in ids then Line(p, Outstanding) else l.book[k])
  }

  /** The connection dropped, and with it every id its session issued. */
  function SessionEnded(l: Ledger): Ledger {
    Forgot(l, l.pending.Keys, SessionOver).(log := map[])
  }

  // ---------------------------------------------------------------- the ledger balances

  predicate Outstands(l: Ledger, id: SubId, p: Pend) {
    Key(id, p.serial) in l.book && l.book[Key(id, p.serial)] == Line(p, Outstanding)
  }

  /** A pending queue: this session's, in arrival order, each entry outstanding in the book. */
  predicate QueueGood(l: Ledger, id: SubId, q: seq<Pend>, session: nat) {
    && q != []
    && (forall i | 0 <= i < |q| :: q[i].session == session && Outstands(l, id, q[i]))
    && (forall i, j | 0 <= i < j < |q| :: q[i].serial < q[j].serial)
  }

  ghost predicate Holds(q: seq<Pend>, p: Pend) {
    exists i | 0 <= i < |q| :: q[i] == p
  }

  /** A line of the book: an outstanding one is in its pending queue. */
  ghost predicate LineGood(l: Ledger, k: Key, line: Line, session: nat, bound: nat) {
    && k.serial == line.pend.serial < bound
    && line.pend.session <= session
    && (line.fate == Outstanding ==> Holds(QueueOf(l.pending, k.sub), line.pend))
    && (line.fate == Forgotten(SessionOver) ==> line.pend.session < session)
  }

  /**
   * Every recorded delivery has exactly one fate, and `Outstanding` is the
   * fate of exactly the pending ones.
   */
  ghost predicate LedgerGood(l: Ledger, session: nat, bound: nat) {
    && (forall id | id in l.pending :: QueueGood(l, id, l.pending[id], session))
    && (forall k | k in l.book :: LineGood(l, k, l.book[k], session, bound))
  }

  /** A delivery keeps its line for good, and a fate once decided stays; new lines are outstanding. */
  ghost predicate LedgerEvolves(l: Ledger, n: Ledger, session: nat) {
    && (forall k | k in l.book ::
          && k in n.book && n.book[k].pend == l.book[k].pend
          && (l.book[k].fate != Outstanding ==> n.book[k].fate == l.book[k].fate))
    && (forall k | k in n.book && k !in l.book ::
          n.book[k].fate == Outstanding && n.book[k].pend.session == session)
  }

  // ---------------------------------------------------------------- recording

  lemma RecordKeeps(l: Ledger, ids: set<SubId>, p: Pend, session: nat)
    requires LedgerGood(l, session, p.serial) && p.session == session
    ensures LedgerGood(Recorded(l, ids, p), session, p.serial + 1)
    ensures LedgerEvolves(l, Recorded(l, ids, p), session)
    ensures forall id | id in ids :: Outstands(Recorded(l, ids, p), id, p)
  {
    var n := Recorded(l, ids, p);
    forall id | id in n.pending
      ensures QueueGood(n, id, n.pending[id], session)
    {
      RecordQueue(l, ids, p, session, id);
    }
    forall k | k in n.book
      ensures LineGood(n, k, n.book[k], session, p.serial + 1)
    {
      RecordLine(l, ids, p, session, k);
    }
    hide QueueGood, LineGood, Grown;
  }

  lemma PendingBelow(l: Ledger, id: SubId, i: nat, session: nat, bound: nat)
    requires LedgerGood(l, session, bound) && id in l.pending && i < |l.pending[id]|
    ensures l.pending[id][i].serial < bound
  {
    assert Outstands(l, id, l.pending[id][i]);
    assert LineGood(l, Key(id, l.pending[id][i].serial), l.book[Key(id, l.pending[id][i].serial)], session, bound);
  }

  lemma QueuePush(n: Ledger, id: SubId, q: seq<Pend>, p: Pend, session: nat)
    requires q != [] ==> QueueGood(n, id, q, session)
    requires Outstands(n, id, p) && p.session == session
    requires forall i | 0 <= i < |q| :: q[i].serial < p.serial
    ensures QueueGood(n, id, q + [p], session)
  {
    hide Outstands;
  }

  lemma RecordQueue(l: Ledger, ids: set<SubId>, p: Pend, session: nat, id: SubId)
    requires LedgerGood(l, session, p.serial) && p.session == session
    requires id in l.pending.Keys + ids
    ensures QueueGood(Recorded(l, ids, p), id, Recorded(l, ids, p).pending[id], session)
  {
    var q := QueueOf(l.pending, id);
    var n := Recorded(l, ids, p);
    assert n.pending[id] == q + if id in ids then [p] else [];
    hide Grown;
    if q != [] {
      assert QueueGood(l, id, q, session);
      RecordedStays(l, ids, p, session, id);
    }
    hide QueueGood;
    if id in ids {
      RecordOutstands(l, ids, p, id);
      forall i | 0 <= i < |q|
        ensures q[i].serial < p.serial
      {
        PendingBelow(l, id, i, session, p.serial);
      }
      QueuePush(n, id, q, p, session);
    } else {
      assert q + [] == q;
    }
  }

  lemma RecordedStays(l: Ledger, ids: set<SubId>, p: Pend, session: nat, id: SubId)
    requires LedgerGood(l, session, p.serial) && id in l.pending
    ensures QueueGood(Recorded(l, ids, p), id, l.pending[id], session)
  {
    var q := l.pending[id];
    forall i | 0 <= i < |q|
      ensures Outstands(Recorded(l, ids, p), id, q[i])
    {
      PendingBelow(l, id, i, session, p.serial);
      assert Outstands(l, id, q[i]);
    }
    assert QueueGood(l, id, q, session);
    hide LedgerGood, Recorded, Outstands;
  }

  lemma RecordOutstands(l: Ledger, ids: set<SubId>, p: Pend, id: SubId)
    ensures id in ids ==> Outstands(Recorded(l, ids, p), id, p)
  {
    if id in ids {
      assert Key(id, p.serial) in (set i | i in ids :: Key(i, p.serial));
    }
  }

  lemma RecordLine(l: Ledger, ids: set<SubId>, p: Pend, session: nat, k: Key)
    requires LedgerGood(l, session, p.serial) && p.session == session
    requires k in Recorded(l, ids, p).book
    ensures LineGood(Recorded(l, ids, p), k, Recorded(l, ids, p).book[k], session, p.serial + 1)
  {
    hide QueueGood;
    var n := Recorded(l, ids, p);
    var q := QueueOf(l.pending, k.sub);
    if k.serial == p.serial && k.sub in ids {
      assert QueueOf(n.pending, k.sub)[|q|] == p;
    } else if l.book[k].fate == Outstanding {
      var i :| 0 <= i < |q| && q[i] == l.book[k].pend;
      assert QueueOf(n.pending, k.sub)[i] == l.book[k].pend;
    }
  }

  // ---------------------------------------------------------------- settling

  lemma SettleKeeps(l: Ledger, sub: SubId, pos: nat, cumulative: bool, session: nat, bound: nat)
    requires LedgerGood(l, session, bound) && pos < |QueueOf(l.pending, sub)|
    ensures LedgerGood(Settled(l, sub, pos, cumulative), session, bound)
    ensures LedgerEvolves(l, Settled(l, sub, pos, cumulative), session)
    ensures var p := QueueOf(l.pending, sub)[pos];
            && Outstands(l, sub, p) && p.session == session
            && Key(sub, p.serial) in Settled(l, sub, pos, cumulative).book
            && Settled(l, sub, pos, cumulative).book[Key(sub, p.serial)] == Line(p, Named)
  {
    var n := Settled(l, sub, pos, cumulative);
    assert QueueGood(l, sub, l.pending[sub], session);
    assert Outstands(l, sub, l.pending[sub][pos]);
    forall id | id in n.pending
      ensures QueueGood(n, id, n.pending[id], session)
    {
      assert QueueGood(l, id, l.pending[id], session);
      if id == sub {
        SettleQueue(l, sub, pos, cumulative, session);
      }
    }
    forall k | k in n.book
      ensures LineGood(n, k, n.book[k], session, bound)
    {
      SettleLine(l, sub, pos, cumulative, session, bound, k);
    }
    hide QueueGood, LineGood, Stored, LeftOver;
  }

  lemma SettleQueue(l: Ledger, sub: SubId, pos: nat, cumulative: bool, session: nat)
    requires sub in l.pending && QueueGood(l, sub, l.pending[sub], session) && pos < |l.pending[sub]|
    requires sub in Settled(l, sub, pos, cumulative).pending
    ensures QueueGood(Settled(l, sub, pos, cumulative), sub, Settled(l, sub, pos, cumulative).pending[sub], session)
  {
    var q := l.pending[sub];
    var n := Settled(l, sub, pos, cumulative);
    var rest := LeftOver(q, pos, cumulative);
    forall i | 0 <= i < |rest|
      ensures Outstands(n, sub, rest[i]) && rest[i].session == session
    {
      var j := if cumulative || i >= pos then i + (|q| - |rest|) else i;
      assert rest[i] == q[j];
      assert Outstands(l, sub, q[j]);
    }
  }

  lemma SettleLine(l: Ledger, sub: SubId, pos: nat, cumulative: bool, session: nat, bound: nat, k: Key)
    requires sub in l.pending && QueueGood(l, sub, l.pending[sub], session) && pos < |l.pending[sub]|
    requires k in l.book && LineGood(l, k, l.book[k], session, bound)
    ensures LineGood(Settled(l, sub, pos, cumulative), k, Settled(l, sub, pos, cumulative).book[k], session, bound)
  {
    var q := l.pending[sub];
    var n := Settled(l, sub, pos, cumulative);
    if n.book[k].fate == Outstanding && k.sub == sub {
      var rest := LeftOver(q, pos, cumulative);
      var i :| 0 <= i < |q| && q[i] == l.book[k].pend;
      assert i != pos;
      assert rest[if i > pos then i - (|q| - |rest|) else i] == q[i];
    }
  }

  // ---------------------------------------------------------------- forgetting

  lemma ForgetKeeps(l: Ledger, ids: set<SubId>, why: Reason, session: nat, bound: nat)
    requires LedgerGood(l, session, bound) && why != SessionOver
    ensures LedgerGood(Forgot(l, ids, why), session, bound)
    ensures LedgerEvolves(l, Forgot(l, ids, why), session)
  {
  }

  lemma EndKeeps(l: Ledger, session: nat, bound: nat)
    requires LedgerGood(l, session, bound)
    ensures LedgerGood(SessionEnded(l), session + 1, bound)
    ensures LedgerEvolves(l, SessionEnded(l), session)
    ensures SessionEnded(l).pending == map[]
    ensures forall k | k in SessionEnded(l).book :: SessionEnded(l).book[k].fate != Outstanding
  {
    var n := SessionEnded(l);
    forall k | k in n.book
      ensures LineGood(n, k, n.book[k], session + 1, bound)
      ensures n.book[k].fate != Outstanding
    {
      assert LineGood(l, k, l.book[k], session, bound);
    }
    hide LineGood, QueueGood;
  }
}
