/** The receipt table and its handles as objects, against the values the state machine uses. */
module Receipt {
  import opened Options
  import opened Types
  import opened Wire

  /** The channel between the table and one handle: at most one value, and a receiver that may go. */
  class Oneshot {
    var value: Option<bool>
    var closed: bool
    /** Whose handle it is. */
    ghost const owner: ReceiptId

    constructor (ghost owner: ReceiptId)
      ensures value == None && !closed && this.owner == owner
    {
      this.owner := owner;
      value := None;
      closed := false;
    }

    /** `send` consumes the sender; the value is lost when the receiver is gone. */
    method Send(ok: bool)
      requires value == None
      modifies this`value
      ensures value == if closed then None else Some(ok)
    {
      if !closed {
        value := Some(ok);
      }
    }
  }

  class PendingReceipts {
    var counter: ReceiptId
    var table: map<ReceiptId, Oneshot>
    /** Every handle ever given out. */
    ghost var handles: map<ReceiptId, Oneshot>

    ghost predicate Valid()
      reads this, handles.Values
    {
      && (forall id | id in handles :: id < counter && handles[id].owner == id)
      && (forall id | id in table :: id in handles && table[id] == handles[id] && handles[id].value == None)
    }

    ghost function View(): Receipts
      reads this, handles.Values
    {
      Receipts(
        counter, table.Keys,
        map id | id in handles && handles[id].value.Some? :: handles[id].value.value,
        set id | id in handles && handles[id].closed)
    }

    constructor ()
      ensures Valid() && View() == NO_RECEIPTS
    {
      counter := 1;
      table := map[];
      handles := map[];
    }

    /** A fresh id is registered, and its handle made, before the frame can be queued. */
    method Register() returns (id: ReceiptId, rx: Oneshot)
      requires Valid()
      modifies this
      ensures Valid() && fresh(rx) && handles == old(handles)[id := rx] && id == old(counter)
      ensures View() == Registering(old(View()))
    {
      id := counter;
      counter := counter + 1;
      rx := new Oneshot(id);
      table := table[id := rx];
      handles := handles[id := rx];
      assert View().answers == old(View()).answers;
      assert View().closed == old(View()).closed;
    }

    /** `settle_receipt`: the waiter leaves the table and is told, once. */
    method Settle(id: ReceiptId, ok: bool)
      requires Valid()
      modifies this`table, handles.Values
      ensures Valid() && handles == old(handles)
      ensures View() == Answered(old(View()), id, ok)
    {
      if id in table {
        var tx := table[id];
        table := table - {id};
        tx.Send(ok);
        assert View().answers == Answered(old(View()), id, ok).answers;
        assert View().closed == old(View()).closed;
      }
    }

    method Deregister(id: ReceiptId)
      requires Valid()
      modifies this`table
      ensures Valid() && handles == old(handles)
      ensures View() == Deregistered(old(View()), id)
    {
      table := table - {id};
    }

    /**
     * `wait` comes to its end: an answer that is there is returned, however
     * long before it came; otherwise the time is up and the id is given up.
     * The handle is used up either way.
     */
    method EndWait(id: ReceiptId, rx: Oneshot) returns (outcome: Option<bool>)
      requires Valid() && id in handles && handles[id] == rx
      modifies this`table, rx`closed
      ensures Valid() && handles == old(handles)
      ensures outcome == if id in old(View()).answers then Some(old(View()).answers[id]) else None
      ensures View() == if outcome.Some? then HandleClosed(old(View()), id)
                        else Deregistered(HandleClosed(old(View()), id), id)
    {
      rx.closed := true;
      assert View().answers == old(View()).answers;
      assert View().closed == HandleClosed(old(View()), id).closed;
      if rx.value.Some? {
        return rx.value;
      }
      Deregister(id);
      return None;
    }
  }
}
