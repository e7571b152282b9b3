/**
  The peer-to-peer message channel (network.py), seen from the game loop:
  `send` appends a message to the outgoing stream and `recv` takes the next
  message the listener has queued, or nothing when the queue is empty.
  Sockets, the listener thread and the JSON framing are not modelled.
*/
module NetworkChannel {
  import opened Wrappers

  /** The message kinds the game exchanges; a result's "hit" key may be missing. */
  datatype Message =
    | ShotMsg(row: int, col: int)
    | ResultMsg(hit: Option<bool>)
    | PlacementDone
    | Disconnect
    | OtherMsg

  class Channel {
    /** Messages received from the peer and not yet taken by `Recv`. */
    var inbox: seq<Message>
    /** Every message sent so far, oldest first. */
    var outbox: seq<Message>

    constructor (incoming: seq<Message>)
      ensures inbox == incoming && outbox == []
    {
      inbox := incoming;
      outbox := [];
    }

    /** send: the message goes out after everything sent before it. */
    method Send(m: Message)
      modifies this`outbox
      ensures outbox == old(outbox) + [m]
    {
      outbox := outbox + [m];
    }

    /** recv: non-blocking; the oldest queued message, or None when there is none. */
    method Recv() returns (m: Option<Message>)
      modifies this`inbox
      ensures old(inbox) == [] ==> m == None && inbox == []
      ensures old(inbox) != [] ==> m == Some(old(inbox)[0]) && inbox == old(inbox)[1..]
    {
      if inbox == [] {
        m := None;
      } else {
        m := Some(inbox[0]);
        inbox := inbox[1..];
      }
    }
  }
}
