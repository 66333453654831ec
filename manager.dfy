/** The msManager module's mutable state and its operations in imperative
    form: the tables and counters are fields of MsManager, the request
    builder is a Builder object whose fields `for` and `with` overwrite, and
    an inbound message is an Inbound object onto which the router attaches
    its reply helpers. Subscribe, Route and Builder.Done are proved to follow
    the step function of the same name in module Semantics; the other
    methods' contracts state their result directly. */
module Manager {
  import opened Protocol
  import Semantics

  /** The `forEach` over a subscriber list: one call per handler, in order,
      each with the message body and the message. */
  method AdvertiseSubscribers(hs: seq<HandlerId>, m: Envelope) returns (calls: seq<Effect>)
    ensures |calls| == |hs|
    ensures forall i :: 0 <= i < |hs| ==> calls[i] == CallHandler(hs[i], m.bdy, m)
  {
    calls := [];
    var index := 0;
    while index < |hs|
      invariant 0 <= index <= |hs|
      invariant |calls| == index
      invariant forall i :: 0 <= i < index ==> calls[i] == CallHandler(hs[i], m.bdy, m)
    {
      calls := calls + [CallHandler(hs[index], m.bdy, m)];
      index := index + 1;
    }
  }

  class MsManager {
    var handlers: map<string, CallbackId>
    var bus: map<string, seq<HandlerId>>
    var received: nat
    var sent: nat
    var notSent: nat
    var errorNoRmid: nat
    var errorNoSubscribers: nat

    function Abs(): Semantics.State
      reads this
    {
      Semantics.State(handlers, bus,
        Semantics.Stats(received, sent, notSent, errorNoRmid, errorNoSubscribers))
    }

    /** Every subscriber list is non-empty. */
    ghost predicate Valid()
      reads this
    {
      Semantics.BusNonEmpty(bus)
    }

    constructor ()
      ensures Valid() && Abs() == Semantics.Init
    {
      handlers := map[];
      bus := map[];
      received, sent, notSent, errorNoRmid, errorNoSubscribers := 0, 0, 0, 0, 0;
    }

    /** `send(to)`: a fresh builder with type ping and body null. */
    method Send(to: string) returns (b: Builder)
      ensures fresh(b)
      ensures b.mgr == this && b.to == to && b.typ == TypPing && b.body == Null
    {
      b := new Builder(this, to);
    }

    /** `subscribe(type, cb)`. */
    method Subscribe(t: string, h: HandlerId)
      modifies this
      ensures old(Valid()) ==> Valid()
      ensures bus == old(bus)[t := (if t in old(bus) then old(bus)[t] else []) + [h]]
      ensures handlers == old(handlers)
      ensures received == old(received) && sent == old(sent) && notSent == old(notSent)
      ensures errorNoRmid == old(errorNoRmid) && errorNoSubscribers == old(errorNoSubscribers)
      ensures Abs() == Semantics.Subscribe(old(Abs()), t, h)
    {
      if t !in bus {
        bus := bus[t := []];
      }
      bus := bus[t := bus[t] + [h]];
    }

    /** The `hydra.on('message')` callback. */
    method Route(msg: Inbound) returns (effs: seq<Effect>)
      modifies this, msg
      ensures Abs() == Semantics.Route(old(Abs()), msg.Env()).state
      ensures effs == Semantics.Route(old(Abs()), msg.Env()).effects
      ensures msg.replyAttached == (old(msg.replyAttached) || Semantics.Dispatches(old(bus), msg.Env()))
      ensures old(Valid()) ==> Valid()
      ensures old(Valid()) ==> SendReply(msg.mid, TypReplyErr, Error(NoSubscribersForType(msg.typ))) !in effs
    {
      received := received + 1;
      if msg.typ == TypReply || msg.typ == TypReplyErr || msg.typ == TypNoSubscribers {
        if msg.rmid.Some? && msg.rmid.value != "" {
          var key := msg.rmid.value;
          if key !in handlers {
            return [Crash];
          }
          var args: seq<Value>;
          if msg.typ == TypReply {
            args := [Null, msg.bdy];
          } else if msg.typ == TypReplyErr {
            args := [msg.bdy];
          } else {
            args := [Error(NoSubscribersRegistered)];
          }
          effs := [InvokeCallback(handlers[key], args)];
          handlers := handlers - {key};
          return;
        } else {
          return [LogError];
        }
      }
      effs := [];
      if msg.typ == TypPing {
        effs := [SendReply(msg.mid, TypPong, EmptyObject)];
      }
      if msg.typ in bus {
        if |bus[msg.typ]| == 0 {
          effs := effs + [SendReply(msg.mid, TypReplyErr, Error(NoSubscribersForType(msg.typ)))];
          return;
        }
        msg.replyAttached := true;
        var calls := AdvertiseSubscribers(bus[msg.typ], msg.Env());
        assert calls == Semantics.Fanout(bus[msg.typ], msg.Env());
        effs := effs + calls;
      } else {
        effs := effs + [SendReply(msg.mid, TypReplyErr, Error(UnrecognizedType(msg.typ)))];
      }
    }
  }

  /** The object `send(to)` returns. */
  class Builder {
    const mgr: MsManager
    const to: string
    var typ: string
    var body: Value

    constructor (mgr: MsManager, to: string)
      ensures this.mgr == mgr && this.to == to && typ == TypPing && body == Null
    {
      this.mgr := mgr;
      this.to := to;
      typ := TypPing;
      body := Null;
    }

    /** `for(type)`: `None` stands for undefined or null. Only a truthy
        type overwrites; the same builder is returned. */
    method For(t: Option<string>) returns (b: Builder)
      modifies this
      ensures b == this
      ensures typ == (if t.Some? && t.value != "" then t.value else old(typ))
      ensures body == old(body)
    {
      if t.Some? && t.value != "" {
        typ := t.value;
      }
      b := this;
    }

    /** `with(body)`: only a truthy body overwrites; the same builder is
        returned. */
    method With(v: Value) returns (b: Builder)
      modifies this
      ensures b == this
      ensures body == (if Truthy(v) then v else old(body))
      ensures typ == old(typ)
    {
      if Truthy(v) {
        body := v;
      }
      b := this;
    }

    /** `done(cb)`: `mid` is the id the transport gives the new message and
        `outcome` how it settles the send. */
    method Done(mid: string, cb: Option<CallbackId>, outcome: SendOutcome) returns (effs: seq<Effect>)
      modifies mgr
      ensures mgr.Abs() == Semantics.Done(old(mgr.Abs()), Outbound(to, typ, body, mid), cb, outcome).state
      ensures effs == Semantics.Done(old(mgr.Abs()), Outbound(to, typ, body, mid), cb, outcome).effects
      ensures old(mgr.Valid()) ==> mgr.Valid()
    {
      var message := Outbound(to, typ, body, mid);
      if cb.Some? {
        mgr.handlers := mgr.handlers[mid := cb.value];
      }
      effs := [SendMessage(message)];
      match outcome {
        case Sent =>
          mgr.sent := mgr.sent + 1;
        case Failed(err) =>
          mgr.notSent := mgr.notSent + 1;
          if cb.Some? {
            effs := effs + [InvokeCallback(cb.value, [err])];
          } else {
            effs := effs + [LogError];
          }
      }
    }
  }

  /** An inbound message object. The router attaches `reply` and `replyErr`
      to it (Object.assign) before calling subscribers; calling either
      before that would call undefined. */
  class Inbound {
    const mid: string
    const typ: string
    const rmid: Option<string>
    const bdy: Value
    var replyAttached: bool

    constructor (mid: string, typ: string, rmid: Option<string>, bdy: Value)
      ensures this.mid == mid && this.typ == typ && this.rmid == rmid && this.bdy == bdy
      ensures !replyAttached
    {
      this.mid := mid;
      this.typ := typ;
      this.rmid := rmid;
      this.bdy := bdy;
      replyAttached := false;
    }

    function Env(): Envelope {
      Envelope(mid, typ, rmid, bdy)
    }

    /** `msg.reply(body)`: a reply correlated to this message, whose body is
        the argument or `{}`, so never falsy; a failed send is logged. */
    method Reply(b: Value, outcome: SendOutcome) returns (effs: seq<Effect>)
      requires replyAttached
      ensures |effs| == (if outcome.Failed? then 2 else 1)
      ensures effs[0].SendReply? && effs[0].rmid == mid && effs[0].typ == TypReply
      ensures Truthy(effs[0].bdy)
      ensures Truthy(b) ==> effs[0].bdy == b
      ensures !Truthy(b) ==> effs[0].bdy == EmptyObject
      ensures outcome.Failed? ==> effs[1] == LogError
    {
      var body := if Truthy(b) then b else EmptyObject;
      effs := [SendReply(mid, TypReply, body)];
      if outcome.Failed? {
        effs := effs + [LogError];
      }
    }

    /** `msg.replyErr(err)`: an error reply correlated to this message,
        whose body is the argument or a default error; a failed send is
        logged. */
    method ReplyErr(e: Value, outcome: SendOutcome) returns (effs: seq<Effect>)
      requires replyAttached
      ensures |effs| == (if outcome.Failed? then 2 else 1)
      ensures effs[0].SendReply? && effs[0].rmid == mid && effs[0].typ == TypReplyErr
      ensures Truthy(effs[0].bdy)
      ensures Truthy(e) ==> effs[0].bdy == e
      ensures !Truthy(e) ==> effs[0].bdy == Error(AnErrorOccurred)
      ensures outcome.Failed? ==> effs[1] == LogError
    {
      var body := if Truthy(e) then e else Error(AnErrorOccurred);
      effs := [SendReply(mid, TypReplyErr, body)];
      if outcome.Failed? {
        effs := effs + [LogError];
      }
    }
  }
}
