/** Types shared by the protocol models. */
module Prelude {
  datatype Option<+T> = None | Some(value: T)

  /** The MessageStatus enumeration of the database schema. */
  datatype MessageStatus = Queued | Processing | Sent | Delivered | Read | Failed

  /** Statuses at which a send worker skips a message. */
  predicate AlreadySent(status: MessageStatus) {
    status in {Sent, Delivered, Read}
  }

  function One(b: bool): nat { if b then 1 else 0 }
}
