/** What either kind of session can do with what reaches it. */
module Session {
  import opened Wrappers
  import opened BigEndian

  /** A client's data: handed to the lease, dropped, or the end of the session. */
  datatype DataAction = Forward | Drop | Refuse

  /** A relay message: written to the client, dropped, or the end of the session. */
  datatype RelayAction = Write | WriteDatagram | Skip | Finish

  /** The client's connection at the moment of a write: whether it still takes
      anything, and the size of the largest datagram it takes. */
  datatype Link = Link(up: bool, room: nat)

  /** Whether the write that an action asks for goes through; a session ends
      with a write that does not. */
  predicate Written(action: RelayAction, data: Bytes, link: Link) {
    match action
    case Write => link.up
    case WriteDatagram => link.up && |data| <= link.room
    case Skip => true
    case Finish => link.up
  }

  function Content(message: Option<Bytes>): Bytes {
    match message case Some(data) => data case None => []
  }

  /** Whether the session goes on after a relay message. */
  predicate GoesOn(action: RelayAction, data: Bytes, link: Link) {
    action != Finish && Written(action, data, link)
  }
}
