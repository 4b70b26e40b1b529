/** Capacity-one channels and the two drop-and-replace senders, each non-blocking select being one step. */
module Channels {
  import opened Prelude

  /** A non-blocking send: taken only by an empty channel. */
  function Sent<T>(slot: Option<T>, x: T): Option<T> { if slot.None? then Some(x) else slot }

  class Channel<T> {
    var slot: Option<T>

    constructor ()
      ensures slot == None
    {
      slot := None;
    }

    method TrySend(x: T) returns (sent: bool)
      modifies this
      ensures slot == Sent(old(slot), x) && sent == old(slot).None?
      ensures slot == if sent then Some(x) else old(slot)
    {
      sent := slot.None?;
      if sent {
        slot := Some(x);
      }
    }

    method TryReceive() returns (x: Option<T>)
      modifies this
      ensures x == old(slot) && slot == None
    {
      x := slot;
      slot := None;
    }
  }

  /** Run alone, it leaves exactly one signal pending whatever it found. */
  method DropAndPush(ch: Channel<()>)
    modifies ch
    ensures ch.slot == Some(())
  {
    var sent := ch.TrySend(());
    if sent {
      return;
    }
    var stale := ch.TryReceive();
    sent := ch.TrySend(());
  }

  /** Run alone, it leaves exactly its own request pending. */
  method Notify<T>(ch: Channel<T>, req: T)
    modifies ch
    ensures ch.slot == Some(req)
  {
    var stale := ch.TryReceive();
    var sent := ch.TrySend(req);
  }
}
