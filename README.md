# XREQ protocol handler, modelled in Dafny

XREQ is the raw requester of the scalability-protocols request/reply pattern in the
`mangos` messaging library (`sp` package). It sits on a hosting `ProtocolSocket` and keeps at
most one message buffered per direction:

- the receive drain (`ProcessRecv`) pushes inbound messages up to the application. It takes
  the buffered `rcvmsg` first, and otherwise takes a new message from any pipe and moves its
  request ID into the header (`trimUint32`). A message whose trim fails is dropped. The loop
  stops when nothing is waiting, or when the application refuses a message, which it then
  parks in `rcvmsg`;
- the send drain (`ProcessSend`) hands outbound messages to any pipe. It takes the buffered
  `sndmsg` first, and otherwise pulls one from the application. On `ErrPipeFull` it parks the
  message in `sndmsg` and stops. On any other error it parks the message and tries it again.
  On success it moves on;
- a static identity: name, protocol number (REQ), raw mode, a peer check that accepts only
  REP, and peer connect/disconnect hooks that do nothing.

Files:

- `messages.dfy` (module `Messages`): messages, the `trimUint32` effect as a function
  `Trim = Message -> Option<Message>`, send outcomes (`Ok`, `PipeFull`, `OtherErr`), and the
  log entries `Call` for the four socket operations.
- `socket.dfy` (module `Socket`): the hosting socket as a scripted oracle class
  `ScriptedSocket`. It holds four finite scripts: inbound messages, PushUp answers, outbound
  messages and SendAnyPipe outcomes. It appends every call, with its answer, to `log`. An
  exhausted PushUp script answers "refuse" and an exhausted SendAnyPipe script answers
  `PipeFull`.
- `xreq_spec.dfy` (module `XReqSpec`): `RecvDrain` and `SendDrain` give the outcome of one
  drain as a function of the buffered message and the scripts: the new buffer, the leftover
  scripts and the exact sequence of socket calls. The lemmas state what the source promises
  about those runs.
- `xreq.dfy` (module `XReqProtocol`): the `XReq` class with fields `rcvmsg` and `sndmsg`. Its
  `ProcessRecv` and `ProcessSend` are `while` loops that mirror the Go `for` loops, and they are
  proved to leave exactly the state and call log that `RecvDrain`/`SendDrain` give. The class
  also holds the identity functions and the endpoint hooks.

The comment at `xreq.go:75-81` says unsendable messages are dropped; the code at
`xreq.go:83-91` re-buffers them, and the model follows the code.

## Model

| member | source | states |
|---|---|---|
| XReqProtocol.XReq.constructor | xreq.go:22-32 | a new handler is bound to its socket with both `rcvmsg` and `sndmsg` empty |
| XReqProtocol.XReq.Process | xreq.go:34-37 | runs the receive drain and then the send drain: the new buffers, scripts and call log are those of `RecvDrain` followed by `SendDrain` |
| XReqProtocol.XReq.ProcessRecv | xreq.go:39-63 | the loop leaves `rcvmsg`, the inbound and PushUp scripts and the call log exactly as `RecvDrain` gives them; the send side (`sndmsg` and its scripts) is untouched |
| XReqProtocol.XReq.ProcessSend | xreq.go:65-93 | the loop leaves `sndmsg`, the outbound and SendAnyPipe scripts and the call log exactly as `SendDrain` gives them; the receive side is untouched |
| XReqProtocol.XReq.Name | xreq.go:95-97 | the name is the non-empty constant `XReqName` |
| XReqProtocol.XReq.Number | xreq.go:99-101 | the protocol number is REQ, which is in the same family as REP (same number divided by 16) but distinct from it |
| XReqProtocol.XReq.IsRaw | xreq.go:103-105 | the handler always reports raw mode |
| XReqProtocol.XReq.ValidPeer | xreq.go:107-112 | a peer is valid if and only if its number is REP; a valid peer is never another REQ |
| XReqProtocol.ValidPeerOnlyRep | xreq.go:107-112 | over all 65536 peer numbers only REP is accepted; 0, REP - 1, REP + 1, 65535 and REQ itself are refused |
| XReqProtocol.XReq.AddEndpoint | xreq.go:114 | connecting a peer changes neither `rcvmsg`, `sndmsg` nor the socket |
| XReqProtocol.XReq.RemEndpoint | xreq.go:115 | disconnecting a peer changes neither `rcvmsg`, `sndmsg` nor the socket |
| Socket.ScriptedSocket.RecvAnyPipe | xreq.go:46 | yields the next waiting inbound message, or nil when none is waiting, and logs the call |
| Socket.ScriptedSocket.PushUp | xreq.go:57 | yields the application's next accept/refuse answer (refuse once the answers run out) and logs the call |
| Socket.ScriptedSocket.PullDown | xreq.go:70 | yields the application's next outbound message, or nil when its queue is empty, and logs the call |
| Socket.ScriptedSocket.SendAnyPipe | xreq.go:83 | yields the next send outcome (`PipeFull` once the outcomes run out) and logs the call |
| XReqSpec.RecvDrain | xreq.go:39-63 | the reference definition of one receive drain: from the entry `rcvmsg` and the inbound and PushUp scripts it gives the new `rcvmsg`, the leftover scripts and the exact sequence of RecvAnyPipe/PushUp calls; its contract says the drain makes at least one call and only consumes the scripts |
| XReqSpec.SendDrain | xreq.go:65-93 | the reference definition of one send drain: from the entry `sndmsg` and the outbound and SendAnyPipe scripts it gives the new `sndmsg`, the leftover scripts and the exact sequence of PullDown/SendAnyPipe calls; its contract says the drain makes at least one call and only consumes the scripts |
| XReqSpec.RecvFirstCall | xreq.go:43-46 | when `rcvmsg` is set on entry, the first socket call is PushUp of that very message, before any RecvAnyPipe; otherwise the first call is RecvAnyPipe |
| XReqSpec.RecvTrace | xreq.go:43-62 | the calls of a receive drain are only RecvAnyPipe/PushUp. A received message whose trim fails is never pushed up: the next call is another receive. A message whose trim succeeds is pushed up next in its trimmed form. An accepted push is followed by a receive. The drain ends exactly at the first empty receive or refused push, and at no earlier call |
| XReqSpec.RecvOutcome | xreq.go:54-60 | on return either `rcvmsg` is nil, no inbound message is left and the last call was an empty receive, or `rcvmsg` holds exactly the message of the last call, a refused PushUp |
| XReqSpec.RecvLeftover | xreq.go:46 | the drain consumes inbound messages only from the front: what is left is a suffix of the inbound queue |
| XReqSpec.RecvAccounting | xreq.go:43-62 | the messages accepted upward, then `rcvmsg`, then the trimmed forms of the inbound messages still waiting, equal the entry `rcvmsg` followed by the trimmed forms of all inbound messages on entry: in order, each exactly once, and a message whose trim fails never appears |
| XReqSpec.RecvRejectedOfferedFirst | xreq.go:44-59 | a message parked in `rcvmsg` after a refusal is the first message offered upward by the next receive drain |
| XReqSpec.SendFirstCall | xreq.go:67-71 | when `sndmsg` is set on entry, the first socket call sends that message, before any PullDown; otherwise the first call is PullDown |
| XReqSpec.SendTrace | xreq.go:66-92 | the calls of a send drain are only PullDown/SendAnyPipe. A pulled message is sent next. After an error other than `PipeFull` the same message is sent again. After a success the next call is PullDown, so the sent message is not sent again. The drain ends exactly at the first empty pull or `PipeFull`, and at no earlier call |
| XReqSpec.SendOutcome | xreq.go:69-88 | on return either `sndmsg` is nil, the application queue is empty and the last call was an empty PullDown, or `sndmsg` holds exactly the message whose send met `PipeFull` in the last call |
| XReqSpec.SendAccounting | xreq.go:66-92 | the messages sent successfully, then `sndmsg`, then the application's remaining queue, equal the entry `sndmsg` followed by the application's queue on entry: the send drain drops nothing and sends nothing twice |
| XReqSpec.SendDeferredSentFirst | xreq.go:67-87 | a message parked in `sndmsg` on `PipeFull` is the first message sent by the next send drain, before anything new is pulled |

## Left out

- Locking: `rcvlock` and the concurrent invocation of the handler (`xreq.go:26-27`, `41-42`). The model is sequential. `ProcessSend` takes no lock in the code (`sndlock` is never used), and the model adds none.
- The `ProtocolSocket` implementation, pipe selection and transports are not part of this model. The socket is a scripted oracle. Its finite scripts make both loops terminate. The real send loop can spin without end if the socket keeps returning a non-full error, and the model does not capture that liveness risk.
- The `error` and pipe results of `RecvAnyPipe` and the pipe result of `SendAnyPipe` are ignored by the code, and the model leaves them out too.
- `Message` internals and `trimUint32` are not part of this model. Trimming is a parameter that either fails or yields the trimmed message, so the framing round trip (the request ID consumed exactly once) is not stated. Freeing a dropped message (the `XXX: FreeMsg()` note) is memory management and is not modelled.
- `Init`, `xreqFactory` and `XReqFactory` (`xreq.go:30-32`, `117-125`) are plumbing. The constructor stands in for allocation followed by `Init`.
- The values of `ProtoReq`, `ProtoRep` and `XReqName` are defined outside `xreq.go`. The model uses the nanomsg numbering 48 and 49 and the name "XREQ". The proofs rely on these values in four ways: `Number` needs REQ and REP to be distinct and in one family (equal after division by 16); `ValidPeerOnlyRep` needs REQ to differ from REP, and REP to be neither 0 nor 65535 so that REP - 1 and REP + 1 are 16-bit values distinct from the boundary cases; `Name` needs a non-empty name. Nothing else depends on them.
- `Endpoint` is reduced to an identifier, since the hooks ignore it.
