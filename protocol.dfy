/** Values, envelopes and effects exchanged between the ms-manager core and
    its transport (hydra). Transport calls are not performed; they are
    returned as Effect values so that every branch of the router and of the
    request builder can be stated exactly. */
module Protocol {

  datatype Option<T> = None | Some(value: T)

  /** Identity of a completion callback handed to `done(cb)`. */
  type CallbackId = nat

  /** Identity of a subscriber handler handed to `subscribe(type, cb)`. */
  type HandlerId = nat

  /** The protocol type tags (msManager.js:158-162). */
  const TypReply := "reply"
  const TypReplyErr := "reply_err"
  const TypPing := "ping"
  const TypPong := "pong"
  const TypNoSubscribers := "no_subscribers"

  /** The three roles that answer an earlier request. */
  predicate IsReplyRole(typ: string) {
    typ == TypReply || typ == TypReplyErr || typ == TypNoSubscribers
  }

  /** Which `new Error(...)` the core builds; the message text is not kept. */
  datatype ErrorTag =
    | NoSubscribersRegistered           // delivered to a callback on a no_subscribers envelope
    | NoSubscribersForType(typ: string) // auto reply for an empty subscriber list
    | UnrecognizedType(typ: string)     // auto reply for a type nobody subscribed to
    | AnErrorOccurred                   // default body of replyErr()

  /** A JavaScript value as far as the core looks at it: only its truthiness. */
  datatype Value =
    | Undefined
    | Null
    | Bool(b: bool)
    | Num(n: int)
    | Str(s: string)
    | EmptyObject
    | Object(ref: nat)
    | Error(tag: ErrorTag)

  /** JavaScript truthiness, as used by `if (type)`, `if (body)`, `body || {}`. */
  predicate Truthy(v: Value) {
    match v
    case Undefined => false
    case Null => false
    case Bool(b) => b
    case Num(n) => n != 0
    case Str(s) => s != ""
    case _ => true
  }

  /** An inbound UMF message as the router reads it: its id, its type, the id
      of the message it answers (if any) and its body. */
  datatype Envelope = Envelope(mid: string, typ: string, rmid: Option<string>, bdy: Value)

  /** `if (msg.rmid)`: the field is present and is not the empty string. */
  predicate HasRmid(m: Envelope) {
    m.rmid.Some? && m.rmid.value != ""
  }

  /** An outbound request as built by `done`, with its fresh id. */
  datatype Outbound = Outbound(to: string, typ: string, bdy: Value, mid: string)

  /** How the transport settled a send promise. */
  datatype SendOutcome = Sent | Failed(err: Value)

  /** What the core asks of the outside world, in the order it asks. */
  datatype Effect =
    | SendMessage(req: Outbound)                      // hydra.sendMessage
    | SendReply(rmid: string, typ: string, bdy: Value) // hydra.sendReplyMessage, answering the message with id rmid
    | InvokeCallback(cb: CallbackId, args: seq<Value>) // a completion callback called with these arguments
    | CallHandler(h: HandlerId, bdy: Value, msg: Envelope) // a subscriber called as elt(msg.bdy, msg)
    | LogError                                         // console.error
    | Crash                                            // a TypeError escapes the router
}
