/** The hosting ProtocolSocket, as seen by the XREQ handler: a scripted oracle.
    Its real implementation (pipe selection, queues, transports) is not part of this model.
    Each script is a finite sequence of the answers the socket will give; every call the
    handler makes is appended to `log` together with the answer it got. */
module Socket {
  import opened Messages

  /** The first element of a script, if any. */
  function Head<T>(s: seq<T>): Option<T>
  {
    if s == [] then None else Some(s[0])
  }

  /** A script with its first answer used up. */
  function Tail<T>(s: seq<T>): seq<T>
  {
    if s == [] then [] else s[1..]
  }

  /** PushUp's answer: an exhausted script means the application is not ready. */
  function Accepts(answers: seq<bool>): bool
  {
    answers != [] && answers[0]
  }

  /** SendAnyPipe's answer: an exhausted script means no pipe has room. */
  function Reply(results: seq<SendResult>): SendResult
  {
    if results == [] then PipeFull else results[0]
  }

  class ScriptedSocket {
    /** Messages RecvAnyPipe will hand out, already read from some pipe. */
    var inbound: seq<Message>
    /** PushUp's accept/reject answers, in order. */
    var answers: seq<bool>
    /** Messages PullDown will hand out, queued by the application. */
    var outbound: seq<Message>
    /** SendAnyPipe's outcomes, in order. */
    var results: seq<SendResult>
    /** Every call made so far, with its answer. */
    var log: seq<Call>

    constructor (inbound: seq<Message>, answers: seq<bool>, outbound: seq<Message>, results: seq<SendResult>)
      ensures this.inbound == inbound && this.answers == answers
      ensures this.outbound == outbound && this.results == results
      ensures log == []
    {
      this.inbound := inbound;
      this.answers := answers;
      this.outbound := outbound;
      this.results := results;
      log := [];
    }

    /** Next inbound message from any pipe, or None when nothing is waiting. */
    method RecvAnyPipe() returns (m: Option<Message>)
      modifies this
      ensures m == Head(old(inbound)) && inbound == Tail(old(inbound))
      ensures answers == old(answers) && outbound == old(outbound) && results == old(results)
      ensures log == old(log) + [Recv(m)]
    {
      m := Head(inbound);
      inbound := Tail(inbound);
      log := log + [Recv(m)];
    }

    /** Offer a message to the application; false is backpressure from above. */
    method PushUp(m: Message) returns (ok: bool)
      modifies this
      ensures ok == Accepts(old(answers)) && answers == Tail(old(answers))
      ensures inbound == old(inbound) && outbound == old(outbound) && results == old(results)
      ensures log == old(log) + [Push(m, ok)]
    {
      ok := Accepts(answers);
      answers := Tail(answers);
      log := log + [Push(m, ok)];
    }

    /** Next outbound message from the application, or None when its queue is empty. */
    method PullDown() returns (m: Option<Message>)
      modifies this
      ensures m == Head(old(outbound)) && outbound == Tail(old(outbound))
      ensures inbound == old(inbound) && answers == old(answers) && results == old(results)
      ensures log == old(log) + [Pull(m)]
    {
      m := Head(outbound);
      outbound := Tail(outbound);
      log := log + [Pull(m)];
    }

    /** Hand a message to any writable pipe. */
    method SendAnyPipe(m: Message) returns (r: SendResult)
      modifies this
      ensures r == Reply(old(results)) && results == Tail(old(results))
      ensures inbound == old(inbound) && answers == old(answers) && outbound == old(outbound)
      ensures log == old(log) + [Send(m, r)]
    {
      r := Reply(results);
      results := Tail(results);
      log := log + [Send(m, r)];
    }
  }
}
