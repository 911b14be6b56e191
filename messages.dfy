/** Values exchanged between the XREQ handler and its hosting socket. */
module Messages {

  /** Go's uint16, used for protocol numbers. */
  newtype uint16 = x: int | 0 <= x < 0x1_0000

  newtype byte = x: int | 0 <= x < 0x100

  /** Go's nil-able *Message and similar "maybe" results. */
  datatype Option<T> = None | Some(value: T)

  /** A message: routing header and opaque body. This handler never looks inside it. */
  datatype Message = Message(header: seq<byte>, body: seq<byte>)

  /** The effect of Message.trimUint32: either it fails (None) or it yields the message
      with its request ID moved into the header. Its body is not part of this model, so
      every operation that needs it takes it as a parameter. */
  type Trim = Message -> Option<Message>

  /** The outcome of ProtocolSocket.SendAnyPipe: nil error, ErrPipeFull, or any other error. */
  datatype SendResult = Ok | PipeFull | OtherErr

  /** One call the handler makes on its socket, with the socket's answer. */
  datatype Call =
    | Recv(got: Option<Message>)                  // RecvAnyPipe
    | Push(msg: Message, accepted: bool)          // PushUp
    | Pull(got: Option<Message>)                  // PullDown
    | Send(msg: Message, result: SendResult)      // SendAnyPipe

  /** The contents of a one-message buffer, as a list. */
  function Slot(o: Option<Message>): seq<Message>
  {
    match o
    case None => []
    case Some(m) => [m]
  }
}
