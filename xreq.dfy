/** The XREQ protocol handler: the raw requester of the request/reply pattern. It keeps at
    most one message per direction buffered and drains its socket in both directions. */
module XReqProtocol {
  import opened Messages
  import opened Socket
  import opened XReqSpec

  /** Protocol numbers in the nanomsg numbering: family 3 (request/reply), subprotocols
      0 (REQ) and 1 (REP). */
  const ProtoReq: uint16 := 3 * 16
  const ProtoRep: uint16 := 3 * 16 + 1

  /** The protocol's name as reported to the host. */
  const XReqName: string := "XREQ"

  /** Sequence concatenation regrouped; the loops below use it to keep their proofs cheap. */
  lemma AppendAssoc(a: seq<Call>, b: seq<Call>, c: seq<Call>)
    ensures a + (b + c) == (a + b) + c
  {
  }

  /** The peer check accepts exactly REP: every other number is refused, and in particular
      the boundary values 0, REP - 1, REP + 1 and 65535, and REQ itself. */
  lemma ValidPeerOnlyRep()
    ensures forall p: uint16 :: XReq.ValidPeer(p) <==> p == ProtoRep
    ensures XReq.ValidPeer(ProtoRep)
    ensures !XReq.ValidPeer(0) && !XReq.ValidPeer(ProtoRep - 1) && !XReq.ValidPeer(ProtoRep + 1)
    ensures !XReq.ValidPeer(0xFFFF) && !XReq.ValidPeer(XReq.Number())
  {
  }

  /** A peer connection announced to the protocol; this protocol ignores it. */
  datatype Endpoint = Endpoint(id: nat)

  class XReq {
    /** The hosting socket, fixed at Init. */
    const sock: ScriptedSocket
    /** A received message the application has not yet accepted. */
    var rcvmsg: Option<Message>
    /** An outbound message no pipe has yet taken. */
    var sndmsg: Option<Message>

    /** A new handler bound to its socket, with both buffers empty. */
    constructor (sock: ScriptedSocket)
      ensures this.sock == sock && rcvmsg == None && sndmsg == None
    {
      this.sock := sock;
      rcvmsg := None;
      sndmsg := None;
    }

    /** Drain the receive side, then the send side. */
    method Process(trim: Trim)
      modifies this, sock
      ensures var rr := RecvDrain(trim, old(rcvmsg), old(sock.inbound), old(sock.answers));
        && rcvmsg == rr.pending && sock.inbound == rr.inbound && sock.answers == rr.answers
      ensures var sr := SendDrain(old(sndmsg), old(sock.outbound), old(sock.results));
        && sndmsg == sr.pending && sock.outbound == sr.outbound && sock.results == sr.results
      ensures sock.log == old(sock.log)
                          + RecvDrain(trim, old(rcvmsg), old(sock.inbound), old(sock.answers)).calls
                          + SendDrain(old(sndmsg), old(sock.outbound), old(sock.results)).calls
    {
      ProcessRecv(trim);
      ProcessSend();
    }

    /** Push received messages up until the application refuses one, which stays buffered
        in rcvmsg. A buffered message goes first; a message whose trim fails is dropped.
        The send side is left alone. */
    method ProcessRecv(trim: Trim)
      modifies this, sock
      ensures var r := RecvDrain(trim, old(rcvmsg), old(sock.inbound), old(sock.answers));
        && rcvmsg == r.pending && sock.inbound == r.inbound && sock.answers == r.answers
        && sock.log == old(sock.log) + r.calls
      ensures sndmsg == old(sndmsg) && sock.outbound == old(sock.outbound) && sock.results == old(sock.results)
    {
      ghost var run := RecvDrain(trim, rcvmsg, sock.inbound, sock.answers);
      ghost var log0 := sock.log;
      while true
        invariant sndmsg == old(sndmsg) && sock.outbound == old(sock.outbound) && sock.results == old(sock.results)
        invariant var r := RecvDrain(trim, rcvmsg, sock.inbound, sock.answers);
          && r.pending == run.pending && r.inbound == run.inbound && r.answers == run.answers
          && sock.log + r.calls == log0 + run.calls
        decreases |sock.inbound|, if rcvmsg.Some? then 1 else 0
      {
        ghost var here := RecvDrain(trim, rcvmsg, sock.inbound, sock.answers);
        ghost var logHere := sock.log;
        var msg := rcvmsg;
        if msg.None? {
          msg := sock.RecvAnyPipe();
          if msg.Some? {
            // move the request ID into the header; a message that lacks one is dropped
            var trimmed := trim(msg.value);
            ghost var after := RecvDrain(trim, trimmed, sock.inbound, sock.answers);
            assert here == after.(calls := [Recv(msg)] + after.calls);
            AppendAssoc(logHere, [Recv(msg)], after.calls);
            if trimmed.None? {
              continue;
            }
            msg := trimmed;
          }
        }
        if msg.None? {
          return;
        }
        ghost var logBefore := sock.log;
        ghost var before := RecvDrain(trim, msg, sock.inbound, sock.answers);
        var ok := sock.PushUp(msg.value);
        if !ok {
          rcvmsg := msg;
          return;
        }
        rcvmsg := None;
        ghost var next := RecvDrain(trim, None, sock.inbound, sock.answers);
        assert before == next.(calls := [Push(msg.value, true)] + next.calls);
        AppendAssoc(logBefore, [Push(msg.value, true)], next.calls);
      }
    }

    /** Send outbound messages until the application has none left or no pipe has room,
        in which case the message stays buffered in sndmsg. A buffered message goes first;
        after any other send error the same message is tried again. The receive side is
        left alone. */
    method ProcessSend()
      modifies this, sock
      ensures var r := SendDrain(old(sndmsg), old(sock.outbound), old(sock.results));
        && sndmsg == r.pending && sock.outbound == r.outbound && sock.results == r.results
        && sock.log == old(sock.log) + r.calls
      ensures rcvmsg == old(rcvmsg) && sock.inbound == old(sock.inbound) && sock.answers == old(sock.answers)
    {
      ghost var run := SendDrain(sndmsg, sock.outbound, sock.results);
      ghost var log0 := sock.log;
      while true
        invariant rcvmsg == old(rcvmsg) && sock.inbound == old(sock.inbound) && sock.answers == old(sock.answers)
        invariant var r := SendDrain(sndmsg, sock.outbound, sock.results);
          && r.pending == run.pending && r.outbound == run.outbound && r.results == run.results
          && sock.log + r.calls == log0 + run.calls
        decreases |sock.results|
      {
        ghost var here := SendDrain(sndmsg, sock.outbound, sock.results);
        ghost var logHere := sock.log;
        var msg := sndmsg;
        sndmsg := None;
        if msg.None? {
          msg := sock.PullDown();
          ghost var after := SendDrain(msg, sock.outbound, sock.results);
          assert here == if msg.None? then after else after.(calls := [Pull(msg)] + after.calls);
          AppendAssoc(logHere, [Pull(msg)], after.calls);
        }
        if msg.None? {
          return;
        }
        // the message goes out as the application wrote it
        ghost var logBefore := sock.log;
        ghost var before := SendDrain(msg, sock.outbound, sock.results);
        var err := sock.SendAnyPipe(msg.value);
        if err != Ok {
          sndmsg := msg;
          if err == PipeFull {
            // no pipe has room: come back later
            return;
          }
          // another error (a closed pipe, say): try the same message on another pipe
          ghost var next := SendDrain(msg, sock.outbound, sock.results);
          assert before == next.(calls := [Send(msg.value, err)] + next.calls);
          AppendAssoc(logBefore, [Send(msg.value, err)], next.calls);
          continue;
        }
        ghost var next := SendDrain(None, sock.outbound, sock.results);
        assert before == next.(calls := [Send(msg.value, Ok)] + next.calls);
        AppendAssoc(logBefore, [Send(msg.value, Ok)], next.calls);
      }
    }

    /** The protocol's name. */
    static function Name(): (s: string)
      ensures s == XReqName && s != []
    {
      XReqName
    }

    /** The protocol number: REQ, in the same family as REP but distinct from it. */
    static function Number(): (n: uint16)
      ensures n == ProtoReq && n / 16 == ProtoRep / 16 && n != ProtoRep
    {
      ProtoReq
    }

    /** XREQ is the raw form of REQ: no request tracking, no resending. */
    static function IsRaw(): (raw: bool)
      ensures raw
    {
      true
    }

    /** Only REP peers are accepted; in particular, not another REQ. */
    static function ValidPeer(peer: uint16): (ok: bool)
      ensures ok <==> peer == ProtoRep
      ensures ok ==> peer != Number()
    {
      if peer == ProtoRep then true else false
    }

    /** A peer connected: nothing to do, both buffers stay as they are. */
    method AddEndpoint(ep: Endpoint)
      ensures rcvmsg == old(rcvmsg) && sndmsg == old(sndmsg)
      ensures unchanged(sock)
    {
    }

    /** A peer went away: nothing to do, both buffers stay as they are. */
    method RemEndpoint(ep: Endpoint)
      ensures rcvmsg == old(rcvmsg) && sndmsg == old(sndmsg)
      ensures unchanged(sock)
    {
    }
  }
}
