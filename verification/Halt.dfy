/** The shutdown signal as the I/O task sees it. */
module Halt {

  /**
   * A broadcast channel of one slot: `unread` counts the signals sent since
   * the task last looked. `shuttingDown` is the task's own flag. History:
   * `sent` counts all signals, `dials` the connect attempts begun.
   */
  datatype Halt = Halt(sent: nat, unread: nat, shuttingDown: bool, dials: nat)

  const RUNNING: Halt := Halt(0, 0, false, 0)

  function Signalled(h: Halt): Halt {
    h.(sent := h.sent + 1, unread := h.unread + 1)
  }

  /** `recv` completes: with the signal, or with the notice that older ones were lost. */
  predicate Ready(h: Halt) {
    h.unread > 0
  }

  /** After a look: one signal is taken; of several, all but the newest are dropped and that one stays unread. */
  function Looked(h: Halt): Halt {
    h.(unread := if h.unread <= 1 then 0 else 1)
  }

  /** A look that does not wait finds a signal: not when there is none, nor when older ones were lost. */
  predicate TryOk(h: Halt) {
    h.unread == 1
  }

  function Stopping(h: Halt): Halt {
    Looked(h).(shuttingDown := true)
  }

  function Dialled(h: Halt): Halt {
    h.(dials := h.dials + 1)
  }
}
