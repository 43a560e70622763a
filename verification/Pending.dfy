/** The pending map as the client keeps it: a queue per subscription, changed in place. */
module Pending {
  import opened Options
  import opened Types
  import opened Ledger

  /** The first entry with this `ack` value. */
  method FindByAckId(queue: seq<Pend>, id: Token) returns (pos: Option<nat>)
    ensures pos == if ByAckId(queue, id) < |queue| then Some(ByAckId(queue, id)) else None
  {
    var i := 0;
    while i < |queue|
      invariant i <= |queue|
      invariant ByAckId(queue, id) == i + ByAckId(queue[i..], id)
    {
      if queue[i].ackId == id {
        return Some(i);
      }
      i := i + 1;
    }
    return None;
  }

  method FindByMsgId(queue: seq<Pend>, id: Token) returns (pos: Option<nat>)
    ensures pos == if ByMsgId(queue, id) < |queue| then Some(ByMsgId(queue, id)) else None
  {
    var i := 0;
    while i < |queue|
      invariant i <= |queue|
      invariant ByMsgId(queue, id) == i + ByMsgId(queue[i..], id)
    {
      if queue[i].msgId == id {
        return Some(i);
      }
      i := i + 1;
    }
    return None;
  }

  class PendingMap {
    var queues: map<SubId, seq<Pend>>

    constructor ()
      ensures queues == map[]
    {
      queues := map[];
    }

    /** The `pending` section of `acknowledge`: settle what `named` names, if it is outstanding. */
    method Settle(sub: SubId, named: Token, cumulative: bool) returns (found: Option<Pend>)
      modifies this
      ensures var q := QueueOf(old(queues), sub);
              var pos := Find(q, named);
              if pos < |q|
              then found == Some(q[pos]) && queues == Stored(old(queues), sub, LeftOver(q, pos, cumulative))
              else found == None && queues == old(queues)
    {
      if sub !in queues {
        return None;
      }
      var queue := queues[sub];
      var pos := FindByAckId(queue, named);
      if pos == None {
        pos := FindByMsgId(queue, named);
      }
      if pos == None {
        return None;
      }
      found := Some(queue[pos.value]);
      if cumulative {
        queue := queue[pos.value + 1..];
      } else {
        queue := queue[..pos.value] + queue[pos.value + 1..];
      }
      if queue == [] {
        queues := queues - {sub};
      } else {
        queues := queues[sub := queue];
      }
    }

    /** Record one MESSAGE under each subscription it is to be delivered to. */
    method Record(ids: seq<SubId>, p: Pend)
      requires Distinct(ids)
      modifies this
      ensures queues == Grown(old(queues), Members(ids), p)
    {
      ghost var before := queues;
      var i := 0;
      GrownByNone(queues, p);
      assert Members(ids[..0]) == {};
      while i < |ids|
        invariant i <= |ids|
        invariant queues == Grown(before, Members(ids[..i]), p)
      {
        assert ids[..i + 1] == ids[..i] + [ids[i]];
        assert Members(ids[..i + 1]) == Members(ids[..i]) + {ids[i]};
        GrownByOne(before, Members(ids[..i]), ids[i], p);
        var queue := if ids[i] in queues then queues[ids[i]] else [];
        queues := queues[ids[i] := queue + [p]];
        i := i + 1;
      }
      assert ids[..|ids|] == ids;
    }

    /** `remove` */
    method Forget(id: SubId)
      modifies this
      ensures queues == old(queues) - {id}
    {
      queues := queues - {id};
    }

    /** The queues of live ids are retained, one key at a time. */
    method Sweep(live: set<SubId>)
      modifies this
      ensures queues == old(queues) - (old(queues).Keys - live)
    {
      ghost var before := queues;
      var left := queues.Keys;
      while left != {}
        invariant left <= before.Keys
        invariant queues == before - ((before.Keys - left) - live)
        decreases left
      {
        var id :| id in left;
        left := left - {id};
        if id !in live {
          Forget(id);
        }
      }
    }
  }

  lemma GrownByNone(queues: map<SubId, seq<Pend>>, p: Pend)
    ensures Grown(queues, {}, p) == queues
  {
    var a := Grown(queues, {}, p);
    forall k | k in a
      ensures a[k] == queues[k]
    {
      assert queues[k] + [] == queues[k];
    }
  }

  lemma GrownByOne(queues: map<SubId, seq<Pend>>, done: set<SubId>, id: SubId, p: Pend)
    requires id !in done
    ensures Grown(queues, done + {id}, p) == Grown(queues, done, p)[id := QueueOf(Grown(queues, done, p), id) + [p]]
  {
    var a := Grown(queues, done + {id}, p);
    var b := Grown(queues, done, p)[id := QueueOf(Grown(queues, done, p), id) + [p]];
    assert a.Keys == b.Keys;
    forall k | k in a
      ensures a[k] == b[k]
    {
      assert QueueOf(queues, id) + [] == QueueOf(queues, id);
    }
  }
}
