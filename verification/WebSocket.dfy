/** A WebSocket session (src/websocket/client.rs): commands are text messages,
    datagrams and stream data are binary ones. */
module WebSocket {
  import opened Wrappers
  import opened BigEndian
  import opened Commands
  import opened Session

  /** What the WebSocket library hands over, or `Lost` for an error or the end
      of the connection. */
  datatype Message = Command(raw: Bytes) | Binary(data: Bytes) | Ping(data: Bytes) | Pong | Close | Lost

  datatype Output = Response(response: string) | Data(data: Bytes) | PongBack(data: Bytes) | CloseFrame

  /** What becomes of the session after a message. */
  datatype Verdict = Continue | Closed | Error

  /** A binary message from the client. */
  function OnBinary(lease: bool): DataAction {
    if lease then Forward else Refuse
  }

  /** A message off the relay, none when the relay is closed. */
  function OnRelay(message: Option<Bytes>, live: Option<bool>): RelayAction {
    match message
    case None => Finish
    case Some(data) => if data == [] && live == Some(false) then Finish else Write
  }

  class WebSocketClient<S> {
    const processor: CommandProcessor<S>
    var relayTx: Option<Relay>
    var lease: Option<LeaseId>
    var output: seq<Output>
    var forwarded: seq<Bytes>

    /** A session that has not failed either still has its relay or has
        exchanged it for a lease. */
    ghost predicate Sound()
      reads this
    {
      relayTx.Some? <==> lease.None?
    }

    constructor (processor: CommandProcessor<S>, relay: Relay)
      ensures this.processor == processor && relayTx == Some(relay) && lease == None
      ensures output == [] && forwarded == [] && Sound()
    {
      this.processor := processor;
      relayTx, lease, output, forwarded := Some(relay), None, [], [];
    }

    /** One message from the client. `taken` is the lease's own answer to data,
        and `up` whether the connection takes what is written to it. A lease
        whose response cannot be written is not kept. */
    method HandleMessage(message: Message, taken: bool, up: bool) returns (verdict: Verdict)
      requires Sound()
      modifies this, processor
      ensures verdict == Continue ==> Sound()
      ensures old(lease).Some? && verdict == Continue ==> lease == old(lease)
      ensures message.Command? ==>
        if old(lease).Some? then verdict == Error && output == old(output) && processor.state == old(processor.state)
        else
          var e := Execute(processor.ip, processor.service, old(processor.state), message.raw, old(relayTx));
          && processor.state == e.state && relayTx == e.relay
          && (match e.result
              case None => verdict == Error && output == old(output) && lease == None
              case Some(result) =>
                if up then
                  && verdict == Continue && lease == result.newLease
                  && output == old(output) + [Response(result.response)]
                else verdict == Error && output == old(output) && lease == None)
      ensures message.Binary? ==>
        && output == old(output)
        && (verdict == Continue <==> OnBinary(old(lease).Some?) == Forward && taken)
        && (verdict == Continue <==> old(lease).Some? && taken)
        && forwarded == old(forwarded) + if verdict == Continue then [message.data] else []
      ensures !message.Binary? ==> forwarded == old(forwarded)
      ensures !message.Command? ==>
        relayTx == old(relayTx) && lease == old(lease) && processor.state == old(processor.state)
      ensures message.Ping? || message.Close? ==>
        && (verdict == Error <==> !up)
        && output == old(output) +
             if !up then [] else if message.Ping? then [PongBack(message.data)] else [CloseFrame]
      ensures message.Pong? ==> verdict == Continue && output == old(output)
      ensures message.Lost? ==> verdict == Error && output == old(output)
      ensures verdict == Closed <==> message.Close? && up
    {
      match message
      case Command(raw) =>
        if lease.Some? {
          return Error;
        }
        var result, relay := processor.HandleCommand(raw, relayTx);
        RelayExchangedForLease(processor.ip, processor.service, old(processor.state), raw, relayTx);
        relayTx := relay;
        if result.None? {
          return Error;
        }
        if !up {
          return Error;
        }
        output := output + [Response(result.value.response)];
        lease := result.value.newLease;
        return Continue;
      case Binary(data) =>
        if lease.None? || !taken {
          return Error;
        }
        forwarded := forwarded + [data];
        return Continue;
      case Ping(data) =>
        if !up {
          return Error;
        }
        output := output + [PongBack(data)];
        return Continue;
      case Pong =>
        return Continue;
      case Close =>
        if !up {
          return Error;
        }
        output := output + [CloseFrame];
        return Closed;
      case Lost =>
        return Error;
    }

    /** One message off the relay, over the connection as it is. */
    method HandleRelay(message: Option<Bytes>, live: bool, link: Link) returns (verdict: Verdict)
      modifies this`output
      ensures var action := OnRelay(message, if lease.Some? then Some(live) else None);
        verdict == Continue <==> GoesOn(action, Content(message), link)
      ensures var ends := message == None || (message == Some([]) && lease.Some? && !live);
        && verdict == (if !link.up then Error else if ends then Closed else Continue)
        && output == old(output) + if !link.up then [] else if ends then [CloseFrame] else [Data(message.value)]
    {
      match message
      case Some(data) =>
        if |data| == 0 {
          if lease.Some? {
            if !live {
              verdict := SayGoodbye(link);
              return;
            }
          }
        }
        if !link.up {
          return Error;
        }
        output := output + [Data(data)];
        return Continue;
      case None =>
        verdict := SayGoodbye(link);
    }

    method SayGoodbye(link: Link) returns (verdict: Verdict)
      modifies this`output
      ensures verdict == if link.up then Closed else Error
      ensures output == old(output) + if link.up then [CloseFrame] else []
    {
      if !link.up {
        return Error;
      }
      output := output + [CloseFrame];
      return Closed;
    }
  }
}
