/** The tokio oneshot channel that cancels a body send. Nothing is ever sent on it: the
    receiver fires because the sender has been dropped. */
module Oneshot {

  /** What the two ends share. The sender end is held as an Option of this object by at most
      one owner; the receiver end is held by the body send. */
  class CancelChannel {
    var closed: bool

    constructor ()
      ensures !closed
    {
      closed := false;
    }

    method DropSender()
      modifies this
      ensures closed
    {
      closed := true;
    }
  }
}
