/** The values the client's shared state is made of. */
module Types {
  import opened Options

  type SubId = nat
  type Dest = nat
  type Tid = nat
  type ReceiptId = nat

  /** A header value; the client only ever compares them. */
  type Token = nat

  datatype AckMode = Auto | Cumulative | Individual

  /**
   * A MESSAGE as dispatched. History: `serial` numbers arrivals, `session` is
   * the connection it came in on, and `horizon` the id the next subscription
   * would have got when the client last looked up whom to record it for.
   */
  datatype Message = Message(
    dest: Option<Dest>, sub: Option<SubId>, msgId: Option<Token>, ackId: Option<Token>,
    serial: nat, session: nat, horizon: SubId)

  /** A delivered MESSAGE not yet acknowledged. */
  datatype Pend = Pend(ackId: Token, msgId: Token, serial: nat, session: nat)

  /** `PendingMessage::new`: without an `ack` header the `message-id` is the ack id. */
  function PendOf(m: Message): Pend
    requires m.msgId.Some?
  {
    Pend(if m.ackId.Some? then m.ackId.value else m.msgId.value, m.msgId.value, m.serial, m.session)
  }

  /** `xs` lists exactly the members of `ids`, each once. */
  predicate Lists(xs: seq<SubId>, ids: set<SubId>) {
    && (forall i | 0 <= i < |xs| :: xs[i] in ids)
    && (forall id | id in ids :: id in xs)
    && Distinct(xs)
  }

  function Members(xs: seq<SubId>): set<SubId> {
    set id | id in xs
  }

  predicate Distinct(xs: seq<SubId>) {
    forall i, j | 0 <= i < j < |xs| :: xs[i] != xs[j]
  }
}
